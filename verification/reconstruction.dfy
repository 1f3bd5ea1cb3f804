/** Stage 2 of the billing pipeline: pairing Start and End events into sessions, per user,
    in first-seen user order (`FairBilling.processLine`, `FairBilling.processLines`).
    An End closes the OLDEST session still waiting for its End; with none waiting it
    records a session whose start lies before the log. */
module Reconstruction {
  import opened Optional
  import opened LineParser
  import opened Sessions
  import opened OrderedMap

  /** The per-user session lists, keyed by user in first-seen order. */
  type SessionMap = OrderedMap<seq<Session>>

  predicate IsStart(p: Pieces) {
    p.action == START_ACTION
  }

  /** `processLine` treats every line whose action is not Start as an End. */
  predicate IsEnd(p: Pieces) {
    !IsStart(p)
  }

  /** `i` is the lowest index of a session still waiting for its End. */
  predicate IsFirstOpen(ss: seq<Session>, i: int) {
    0 <= i < |ss| && IsOpen(ss[i]) && forall j :: 0 <= j < i ==> !IsOpen(ss[j])
  }

  predicate AllClosed(ss: seq<Session>) {
    forall j :: 0 <= j < |ss| ==> !IsOpen(ss[j])
  }

  /** The scan from the top of the list that `processLine` does on an End. */
  function FirstOpen(ss: seq<Session>): (r: Option<nat>)
    ensures r.Some? ==> IsFirstOpen(ss, r.value)
    ensures r.None? ==> AllClosed(ss)
  {
    if |ss| == 0 then None
    else if IsOpen(ss[0]) then Some(0)
    else match FirstOpen(ss[1..])
      case Some(i) => Some(i + 1)
      case None => None
  }

  /** Every event's time is one `LocalTime.parse` accepts (otherwise the source throws). */
  predicate AllInDay(es: seq<Pieces>) {
    forall i :: 0 <= i < |es| ==> InDay(es[i])
  }

  /** `FairBilling.processLine`: one event applied to the user's session list. */
  function ProcessLine(p: Pieces, ss: seq<Session>): (r: seq<Session>)
    requires InDay(p)
    ensures IsStart(p) ==> r == ss + [Session(p.userId, Some(TimeOf(p)), None)]
    ensures IsEnd(p) ==>
      forall i :: IsFirstOpen(ss, i) ==> r == ss[i := ss[i].(endTime := Some(TimeOf(p)))]
    ensures IsEnd(p) && AllClosed(ss) ==> r == ss + [Session(p.userId, None, Some(TimeOf(p)))]
  {
    var t := TimeOf(p);
    if IsStart(p) then ss + [SetStartTime(NewSession(p.userId), Some(t))]
    else match FirstOpen(ss)
      case Some(i) => ss[i := SetEndTime(ss[i], Some(t))]
      case None => ss + [SetEndTime(NewSession(p.userId), Some(t))]
  }

  /** One user's session list after that user's events, starting from no list at all. */
  function Replay(es: seq<Pieces>): (ss: seq<Session>)
    requires AllInDay(es)
  {
    if |es| == 0 then []
    else ProcessLine(es[|es| - 1], Replay(es[..|es| - 1]))
  }

  function UserIds(es: seq<Pieces>): (us: seq<string>)
    ensures |us| == |es|
    ensures forall i :: 0 <= i < |es| ==> us[i] == es[i].userId
  {
    if |es| == 0 then [] else UserIds(es[..|es| - 1]) + [es[|es| - 1].userId]
  }

  /** Every event belongs to user `u`. */
  predicate OneUser(es: seq<Pieces>, u: string) {
    forall i :: 0 <= i < |es| ==> es[i].userId == u
  }

  /** The events of user `u`, in log order. */
  function EventsOf(es: seq<Pieces>, u: string): (r: seq<Pieces>)
    ensures |r| <= |es|
    ensures forall i :: 0 <= i < |r| ==> r[i].userId == u && r[i] in es
  {
    if |es| == 0 then []
    else EventsOf(es[..|es| - 1], u) + (if es[|es| - 1].userId == u then [es[|es| - 1]] else [])
  }

  /** The position of the first occurrence of `x`. */
  function FirstIndex(us: seq<string>, x: string): (i: nat)
    requires x in us
    ensures i < |us| && us[i] == x
    ensures forall j :: 0 <= j < i ==> us[j] != x
  {
    if us[0] == x then 0 else 1 + FirstIndex(us[1..], x)
  }

  /** The distinct users, each at its first appearance: a reference for the key order of
      a `LinkedHashMap` filled by `put`. */
  function FirstSeen(us: seq<string>): (r: seq<string>)
  {
    if |us| == 0 then []
    else if us[|us| - 1] in us[..|us| - 1] then FirstSeen(us[..|us| - 1])
    else FirstSeen(us[..|us| - 1]) + [us[|us| - 1]]
  }

  /** `FairBilling.processLines`: each event is applied to its user's list, which is put
      back under the user's key. Each event adds at most one entry; `ProcessLinesKeys` and
      `ProcessLinesLookup` say which entries there are. */
  function ProcessLines(es: seq<Pieces>): (m: SessionMap)
    requires AllInDay(es)
    ensures |m| <= |es|
  {
    if |es| == 0 then []
    else
      var m := ProcessLines(es[..|es| - 1]);
      var p := es[|es| - 1];
      Put(m, p.userId, ProcessLine(p, Get(m, p.userId).GetOr([])))
  }

  /** `FirstSeen` lists each user once, exactly the users present, ordered by first
      appearance. */
  lemma {:induction false} FirstSeenSpec(us: seq<string>)
    ensures Distinct(FirstSeen(us))
    ensures forall x :: x in FirstSeen(us) <==> x in us
    ensures forall i, j :: 0 <= i < j < |FirstSeen(us)| ==>
              FirstIndex(us, FirstSeen(us)[i]) < FirstIndex(us, FirstSeen(us)[j])
  {
    if |us| > 0 {
      var init := us[..|us| - 1];
      var x := us[|us| - 1];
      FirstSeenSpec(init);
      assert us == init + [x];
      forall y | y in init
        ensures FirstIndex(us, y) == FirstIndex(init, y)
      {
        var k := FirstIndex(init, y);
        assert us[k] == y;
      }
      if x !in init {
        assert FirstIndex(us, x) == |us| - 1;
      }
    }
  }

  /** The keys of the session map are the distinct users in first-seen order. */
  lemma {:induction false} ProcessLinesKeys(es: seq<Pieces>)
    requires AllInDay(es)
    ensures Keys(ProcessLines(es)) == FirstSeen(UserIds(es))
  {
    if |es| > 0 {
      var init := es[..|es| - 1];
      var p := es[|es| - 1];
      ProcessLinesKeys(init);
      assert UserIds(es)[..|es| - 1] == UserIds(init);
      FirstSeenSpec(UserIds(init));
    }
  }

  /** Each user's list is that user's own events replayed from scratch: users do not
      interfere, and users never seen have no entry. */
  lemma {:induction false} ProcessLinesLookup(es: seq<Pieces>, u: string)
    requires AllInDay(es)
    ensures Get(ProcessLines(es), u)
         == if u in UserIds(es) then Some(Replay(EventsOf(es, u))) else None
  {
    if |es| > 0 {
      var init := es[..|es| - 1];
      var p := es[|es| - 1];
      assert UserIds(es) == UserIds(init) + [p.userId];
      ProcessLinesLookup(init, u);
      if u == p.userId {
        LookupOwnUser(es);
      } else {
        assert EventsOf(es, u) == EventsOf(init, u);
      }
    }
  }

  /** The step of `ProcessLinesLookup` for the user of the last event. */
  lemma LookupOwnUser(es: seq<Pieces>)
    requires AllInDay(es) && |es| > 0
    requires Get(ProcessLines(es[..|es| - 1]), es[|es| - 1].userId)
          == if es[|es| - 1].userId in UserIds(es[..|es| - 1])
             then Some(Replay(EventsOf(es[..|es| - 1], es[|es| - 1].userId))) else None
    ensures Get(ProcessLines(es), es[|es| - 1].userId)
         == Some(Replay(EventsOf(es, es[|es| - 1].userId)))
  {
    var init := es[..|es| - 1];
    var p := es[|es| - 1];
    var u := p.userId;
    var prior := EventsOf(init, u);
    assert AllInDay(prior);
    if u !in UserIds(init) {
      EventsOfAbsent(init, u);
    }
    var before := Get(ProcessLines(init), u).GetOr([]);
    assert before == Replay(prior);
    var ev := EventsOf(es, u);
    assert ev == prior + [p];
    assert ev[..|ev| - 1] == prior;
    assert Replay(ev) == ProcessLine(p, before);
  }

  /** The entry at position `k` of the map is a user of the log with the replay of
      exactly that user's events. */
  lemma EntryIsReplay(es: seq<Pieces>, k: nat)
    requires AllInDay(es) && k < |ProcessLines(es)|
    ensures var e := ProcessLines(es)[k];
      && e.key in UserIds(es)
      && AllInDay(EventsOf(es, e.key))
      && e.value == Replay(EventsOf(es, e.key))
  {
    var m := ProcessLines(es);
    ProcessLinesKeys(es);
    FirstSeenSpec(UserIds(es));
    GetAt(m, k);
    var u := m[k].key;
    assert u in Keys(m);
    ProcessLinesLookup(es, u);
  }

  /** A user with no event has no events to replay. */
  lemma {:induction false} EventsOfAbsent(es: seq<Pieces>, u: string)
    requires u !in UserIds(es)
    ensures EventsOf(es, u) == []
  {
    if |es| > 0 {
      var init := es[..|es| - 1];
      assert UserIds(es) == UserIds(init) + [es[|es| - 1].userId];
      EventsOfAbsent(init, u);
    }
  }
}
