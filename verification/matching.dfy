/** What the per-user matching automaton keeps true: the shape of a session list after
    any sequence of events, and a count-only description of the pairing. */
module Matching {
  import opened Optional
  import opened TimeOfDay
  import opened LineParser
  import opened Sessions
  import opened Seqs
  import opened Reconstruction

  function NumStarts(es: seq<Pieces>): (n: nat) {
    Count(es, IsStart)
  }

  function NumEnds(es: seq<Pieces>): (n: nat) {
    Count(es, IsEnd)
  }

  /** The pairing seen through counts alone: how many sessions wait for an End, and how
      many Ends found nothing waiting (their Start lies before the log). */
  datatype Tally = Tally(open: nat, orphanEnds: nat)

  function TallyOf(es: seq<Pieces>): (t: Tally)
  {
    if |es| == 0 then Tally(0, 0)
    else
      var t := TallyOf(es[..|es| - 1]);
      if IsStart(es[|es| - 1]) then t.(open := t.open + 1)
      else if t.open > 0 then t.(open := t.open - 1)
      else t.(orphanEnds := t.orphanEnds + 1)
  }

  /** Open sessions only ever sit at the back of the list. */
  predicate OpenSuffix(ss: seq<Session>) {
    forall i, j :: 0 <= i < j < |ss| && IsOpen(ss[i]) ==> IsOpen(ss[j])
  }

  /** The list shape `processLine` maintains, against the events that produced it. */
  predicate Matches(ss: seq<Session>, es: seq<Pieces>) {
    && |ss| == NumStarts(es) + TallyOf(es).orphanEnds
    && Count(ss, HasStart) == NumStarts(es)
    && Count(ss, HasEnd) == NumEnds(es)
    && Count(ss, IsOpen) == TallyOf(es).open
    && (forall i :: 0 <= i < |ss| ==> HasStart(ss[i]) || HasEnd(ss[i]))
    && OpenSuffix(ss)
  }

  /** A Start appends an open session. */
  lemma StartMatches(ss: seq<Session>, es: seq<Pieces>, p: Pieces)
    requires InDay(p) && IsStart(p) && Matches(ss, es)
    ensures Matches(ProcessLine(p, ss), es + [p])
  {
    assert (es + [p])[..|es + [p]| - 1] == es;
    CountAppend(es, [p], IsStart);
    CountAppend(es, [p], IsEnd);
    var s := Session(p.userId, Some(TimeOf(p)), None);
    CountAppend(ss, [s], HasStart);
    CountAppend(ss, [s], HasEnd);
    CountAppend(ss, [s], IsOpen);
  }

  /** An End with a session waiting closes the oldest one in place. */
  lemma CloseMatches(ss: seq<Session>, es: seq<Pieces>, p: Pieces)
    requires InDay(p) && IsEnd(p) && Matches(ss, es) && TallyOf(es).open > 0
    ensures Matches(ProcessLine(p, ss), es + [p])
  {
    assert (es + [p])[..|es + [p]| - 1] == es;
    CountAppend(es, [p], IsStart);
    CountAppend(es, [p], IsEnd);
    CountNone(ss, IsOpen);
    var i := FirstOpen(ss).value;
    var s := ss[i].(endTime := Some(TimeOf(p)));
    assert ProcessLine(p, ss) == ss[i := s];
    CountUpdate(ss, i, s, HasStart);
    CountUpdate(ss, i, s, HasEnd);
    CountUpdate(ss, i, s, IsOpen);
  }

  /** An End with nothing waiting appends a session without a start. */
  lemma OrphanMatches(ss: seq<Session>, es: seq<Pieces>, p: Pieces)
    requires InDay(p) && IsEnd(p) && Matches(ss, es) && TallyOf(es).open == 0
    ensures Matches(ProcessLine(p, ss), es + [p])
  {
    assert (es + [p])[..|es + [p]| - 1] == es;
    CountAppend(es, [p], IsStart);
    CountAppend(es, [p], IsEnd);
    CountNone(ss, IsOpen);
    var s := Session(p.userId, None, Some(TimeOf(p)));
    CountAppend(ss, [s], HasStart);
    CountAppend(ss, [s], HasEnd);
    CountAppend(ss, [s], IsOpen);
  }

  /** One event keeps the shape. */
  lemma ProcessLineMatches(ss: seq<Session>, es: seq<Pieces>, p: Pieces)
    requires InDay(p) && Matches(ss, es)
    ensures Matches(ProcessLine(p, ss), es + [p])
  {
    if IsStart(p) {
      StartMatches(ss, es, p);
    } else if TallyOf(es).open > 0 {
      CloseMatches(ss, es, p);
    } else {
      OrphanMatches(ss, es, p);
    }
  }

  /** The shape holds of every replayed list: sessions = Starts + orphan Ends, one start
      per Start, one end per End, no session without both times, open ones at the back. */
  lemma {:induction false} ReplayMatches(es: seq<Pieces>)
    requires AllInDay(es)
    ensures Matches(Replay(es), es)
  {
    if |es| == 0 {
    } else {
      var init := es[..|es| - 1];
      ReplayMatches(init);
      assert init + [es[|es| - 1]] == es;
      ProcessLineMatches(Replay(init), init, es[|es| - 1]);
    }
  }

  /** How far the Ends have run ahead of the Starts. */
  function Deficit(es: seq<Pieces>): (d: int) {
    NumEnds(es) - NumStarts(es)
  }

  /** The largest deficit over all prefixes (0 for the empty prefix). */
  function MaxDeficit(es: seq<Pieces>): (d: nat)
    ensures d >= Deficit(es)
  {
    if |es| == 0 then 0
    else
      var d := MaxDeficit(es[..|es| - 1]);
      if Deficit(es) > d then Deficit(es) else d
  }

  /** The orphan Ends are exactly the worst deficit of Ends over Starts along the log,
      and what stays open is the surplus of Starts that the Ends could not consume. */
  lemma {:induction false} TallyIsDeficit(es: seq<Pieces>)
    ensures TallyOf(es).orphanEnds == MaxDeficit(es)
    ensures TallyOf(es).open == NumStarts(es) - NumEnds(es) + MaxDeficit(es)
  {
    if |es| > 0 {
      TallyIsDeficit(es[..|es| - 1]);
    }
  }

  /** A user's sessions number their Starts plus the worst run of Ends ahead of Starts. */
  lemma SessionCount(es: seq<Pieces>)
    requires AllInDay(es)
    ensures |Replay(es)| == NumStarts(es) + MaxDeficit(es)
  {
    ReplayMatches(es);
    TallyIsDeficit(es);
  }

  /** Event times never go backwards along the log. */
  predicate NonDecreasing(es: seq<Pieces>) {
    AllInDay(es) && forall i, j :: 0 <= i < j < |es| ==> TimeOf(es[i]) <= TimeOf(es[j])
  }

  /** Every known time lies in [lo, hi], and a session knowing both ends does not end
      before it starts. */
  predicate TimesWithin(ss: seq<Session>, lo: int, hi: int) {
    forall i :: 0 <= i < |ss| ==>
      && (ss[i].startTime.Some? ==> lo <= ss[i].startTime.value <= hi)
      && (ss[i].endTime.Some? ==> lo <= ss[i].endTime.value <= hi)
      && (ss[i].startTime.Some? && ss[i].endTime.Some? ==>
            ss[i].startTime.value <= ss[i].endTime.value)
  }

  /** With ordered events, the sessions lie between the first and the latest event. */
  lemma {:induction false} ReplayTimesTight(es: seq<Pieces>)
    requires NonDecreasing(es) && |es| > 0
    ensures TimesWithin(Replay(es), TimeOf(es[0]), TimeOf(es[|es| - 1]))
  {
    var p := es[|es| - 1];
    var t := TimeOf(p);
    var init := es[..|es| - 1];
    if |init| > 0 {
      assert NonDecreasing(init);
      ReplayTimesTight(init);
      assert TimeOf(init[|init| - 1]) <= t;
      assert TimeOf(es[0]) <= t;
      var ss := Replay(init);
      if IsEnd(p) && FirstOpen(ss).Some? {
        var i := FirstOpen(ss).value;
        assert ProcessLine(p, ss) == ss[i := ss[i].(endTime := Some(t))];
      }
    }
  }

  /** With ordered events all inside [lo, hi], every session time is inside too. */
  lemma ReplayTimes(es: seq<Pieces>, lo: int, hi: int)
    requires NonDecreasing(es)
    requires forall i :: 0 <= i < |es| ==> lo <= TimeOf(es[i]) <= hi
    ensures TimesWithin(Replay(es), lo, hi)
  {
    if |es| > 0 {
      ReplayTimesTight(es);
    }
  }

  /** A user's own events keep the log's order. */
  lemma {:induction false} EventsOfNonDecreasing(es: seq<Pieces>, u: string)
    requires NonDecreasing(es)
    ensures NonDecreasing(EventsOf(es, u))
  {
    if |es| > 0 {
      var init := es[..|es| - 1];
      var p := es[|es| - 1];
      assert NonDecreasing(init);
      EventsOfNonDecreasing(init, u);
      var prior := EventsOf(init, u);
      forall k | 0 <= k < |prior|
        ensures TimeOf(prior[k]) <= TimeOf(p)
      {
        var j :| 0 <= j < |init| && init[j] == prior[k];
      }
    }
  }

  /** Replayed sessions belong to the user whose events were replayed. */
  lemma {:induction false} ReplayUser(es: seq<Pieces>, u: string)
    requires AllInDay(es)
    requires OneUser(es, u)
    ensures forall i :: 0 <= i < |Replay(es)| ==> Replay(es)[i].userId == u
  {
    if |es| > 0 {
      ReplayUser(es[..|es| - 1], u);
    }
  }
}
