/** The expected outputs fixed by the project's unit tests, proved of the model. */
module Examples {
  import opened Optional
  import opened Int32
  import opened TimeOfDay
  import opened LineParser
  import opened Sessions
  import opened OrderedMap
  import opened Reconstruction
  import opened Billing

  lemma {:induction false} EventsOfOneUser(es: seq<Pieces>, u: string)
    requires OneUser(es, u)
    ensures EventsOf(es, u) == es
  {
    if |es| > 0 {
      var init := es[..|es| - 1];
      assert OneUser(init, u) by {
        forall i | 0 <= i < |init|
          ensures init[i].userId == u
        {
          assert init[i] == es[i];
        }
      }
      EventsOfOneUser(init, u);
      assert init + [es[|es| - 1]] == es;
    }
  }

  lemma {:induction false} FirstSeenOneUser(es: seq<Pieces>, u: string)
    requires OneUser(es, u) && |es| > 0
    ensures FirstSeen(UserIds(es)) == [u]
  {
    var init := es[..|es| - 1];
    assert UserIds(es) == UserIds(init) + [u];
    assert UserIds(es)[..|es| - 1] == UserIds(init);
    if |init| > 0 {
      FirstSeenOneUser(init, u);
      assert u in UserIds(init);
    }
  }

  /** A log of one user's events yields the single row of that user's replayed sessions. */
  lemma OneUserFile(lines: seq<string>, es: seq<Pieces>, u: string, count: int, total: int)
    requires ParseAllTheLines(lines) == es && |es| > 0 && AllInDay(es) && OneUser(es, u)
    requires |Replay(es)| == count && InRange(count)
    requires Billable(Replay(es), TimeOf(es[0]), TimeOf(es[|es| - 1])) == total && InRange(total)
    ensures ProcessFileAsList(lines) == Success([UserResult(u, count, total)])
  {
    assert |lines| > 0;
    var r := ProcessFileAsList(lines);
    assert r.Success?;
    ProcessFileAsListUsers(lines);
    FirstSeenOneUser(es, u);
    assert |r.value| == 1 && r.value[0].userId == u;
    ProcessFileAsListRow(lines, 0);
    EventsOfOneUser(es, u);
    assert r.value == [r.value[0]];
  }

  lemma ReplayPrefix(es: seq<Pieces>, k: nat)
    requires AllInDay(es) && k < |es|
    ensures Replay(es[..k + 1]) == ProcessLine(es[k], Replay(es[..k]))
  {
    assert es[..k + 1][..k] == es[..k];
  }

  /** Replaying one more event that is a Start. */
  lemma StepStart(es: seq<Pieces>, k: nat, ss: seq<Session>)
    requires AllInDay(es) && k < |es| && Replay(es[..k]) == ss && IsStart(es[k])
    ensures Replay(es[..k + 1]) == ss + [Session(es[k].userId, Some(TimeOf(es[k])), None)]
  {
    ReplayPrefix(es, k);
  }

  /** Replaying one more event that is an End closing session `i`. */
  lemma StepClose(es: seq<Pieces>, k: nat, ss: seq<Session>, i: nat)
    requires AllInDay(es) && k < |es| && Replay(es[..k]) == ss && IsEnd(es[k])
    requires IsFirstOpen(ss, i)
    ensures Replay(es[..k + 1]) == ss[i := ss[i].(endTime := Some(TimeOf(es[k])))]
  {
    ReplayPrefix(es, k);
  }

  /** Replaying one more event that is an End with nothing waiting. */
  lemma StepOrphan(es: seq<Pieces>, k: nat, ss: seq<Session>)
    requires AllInDay(es) && k < |es| && Replay(es[..k]) == ss && IsEnd(es[k])
    requires AllClosed(ss)
    ensures Replay(es[..k + 1]) == ss + [Session(es[k].userId, None, Some(TimeOf(es[k])))]
  {
    ReplayPrefix(es, k);
  }

  lemma BillableSnoc(ss: seq<Session>, s: Session, first: Time, last: Time)
    ensures Billable(ss + [s], first, last) == Billable(ss, first, last) + FilledSeconds(s, first, last)
  {
    assert (ss + [s])[..|ss|] == ss;
  }

  /** Events: well-formed pieces carrying Start or End. */
  predicate AllEvents(ps: seq<Pieces>) {
    forall i :: 0 <= i < |ps| ==> WellFormed(ps[i]) && IsEvent(ps[i])
  }

  /** Each line is the rendering of the event at the same index. */
  predicate RendersAs(lines: seq<string>, ps: seq<Pieces>)
    requires AllEvents(ps)
  {
    |lines| == |ps| && forall i :: 0 <= i < |ps| ==> lines[i] == Render(ps[i])
  }

  /** Dropping the first line and event keeps the rendering relation. */
  lemma RendersAsTail(lines: seq<string>, ps: seq<Pieces>)
    requires AllEvents(ps) && RendersAs(lines, ps) && |ps| > 0
    ensures AllEvents(ps[1..]) && RendersAs(lines[1..], ps[1..])
  {
    var ls, qs := lines[1..], ps[1..];
    forall i | 0 <= i < |qs|
      ensures WellFormed(qs[i]) && IsEvent(qs[i]) && ls[i] == Render(qs[i])
    {
      assert ls[i] == lines[i + 1] && qs[i] == ps[i + 1];
    }
  }

  /** A first line parsing to an event puts that event in front of the rest. */
  lemma ParseFirst(lines: seq<string>, p: Pieces)
    requires |lines| > 0 && ParseLine(lines[0]) == Some(p) && IsEvent(p)
    ensures ParseAllTheLines(lines) == [p] + ParseAllTheLines(lines[1..])
  {
  }

  /** Lines that are the renderings of events parse back to exactly those events. */
  lemma {:induction false} ParsesAs(lines: seq<string>, ps: seq<Pieces>)
    requires AllEvents(ps) && RendersAs(lines, ps)
    ensures ParseAllTheLines(lines) == ps
  {
    if |ps| > 0 {
      ParseRender(ps[0]);
      ParseFirst(lines, ps[0]);
      RendersAsTail(lines, ps);
      ParsesAs(lines[1..], ps[1..]);
      assert [ps[0]] + ps[1..] == ps;
    }
  }

  /** The user and actions of the test logs contain no line terminator and the actions
      no space. */
  lemma PlainWords(u: string)
    requires forall i :: 0 <= i < |u| ==> 'A' <= u[i] <= 'Z' || 'a' <= u[i] <= 'z' || '0' <= u[i] <= '9'
    ensures NoLineTerminator(u)
    ensures forall i :: 0 <= i < |u| ==> u[i] != ' '
  {
  }

  /** Two-digit events of one plainly named user are events in the sense above. */
  lemma EventsOfPlainUser(ps: seq<Pieces>, u: string)
    requires forall i :: 0 <= i < |u| ==> 'A' <= u[i] <= 'Z' || 'a' <= u[i] <= 'z' || '0' <= u[i] <= '9'
    requires forall i :: 0 <= i < |ps| ==>
      && ps[i].userId == u && IsEvent(ps[i])
      && ps[i].hours < 100 && ps[i].minutes < 100 && ps[i].seconds < 100
    ensures AllEvents(ps)
  {
    PlainWords(u);
    PlainWords(START_ACTION);
    PlainWords(END_ACTION);
  }

  lemma RenderAlice99140000Start()
    ensures Render(Pieces(14, 0, 0, "ALICE99", "Start")) == "14:00:00 ALICE99 Start"
  {
  }

  const ONLY_START: seq<string> :=
    ["14:00:00 ALICE99 Start"]

  const ONLY_START_EVENTS: seq<Pieces> :=
    [Pieces(14, 0, 0, "ALICE99", "Start")]

  lemma OnlyStartEvents()
    ensures AllEvents(ONLY_START_EVENTS)
  {
    EventsOfPlainUser(ONLY_START_EVENTS, "ALICE99");
  }

  lemma OnlyStartRenders()
    ensures AllEvents(ONLY_START_EVENTS) && RendersAs(ONLY_START, ONLY_START_EVENTS)
  {
    OnlyStartEvents();
    RenderAlice99140000Start();
    assert ONLY_START[0] == Render(ONLY_START_EVENTS[0]);
  }

  lemma OnlyStartParses()
    ensures ParseAllTheLines(ONLY_START) == ONLY_START_EVENTS
  {
    OnlyStartRenders();
    ParsesAs(ONLY_START, ONLY_START_EVENTS);
  }

  lemma OnlyStartInDay()
    ensures AllInDay(ONLY_START_EVENTS)
  {
  }

  lemma OnlyStartReplay()
    ensures Replay(ONLY_START_EVENTS) == [Session("ALICE99", Some(50400), None)]
  {
    var es := ONLY_START_EVENTS;
    OnlyStartInDay();
    assert es[..0] == [];
    assert es[..1] == es;
    var ss := [];
    assert es[0].action == "Start" && TimeOf(es[0]) == 50400;
    StepStart(es, 0, ss);
    assert Replay(es[..1]) == [Session("ALICE99", Some(50400), None)];
  }

  lemma OnlyStartBill()
    ensures Billable([Session("ALICE99", Some(50400), None)], 50400, 50400) == 0
  {
    var s0 := Session("ALICE99", Some(50400), None);
    BillableSnoc([], s0, 50400, 50400);
    assert [] + [s0] == [s0];
  }

  lemma OnlyStartFacts()
    ensures var es := ONLY_START_EVENTS;
      && |es| > 0 && AllInDay(es) && OneUser(es, "ALICE99")
      && |Replay(es)| == 1
      && Billable(Replay(es), TimeOf(es[0]), TimeOf(es[|es| - 1])) == 0
  {
    var es := ONLY_START_EVENTS;
    assert |es| > 0 && AllInDay(es) && OneUser(es, "ALICE99");
    assert TimeOf(es[0]) == 50400 && TimeOf(es[|es| - 1]) == 50400;
    OnlyStartReplay();
    OnlyStartBill();
  }

  /** testProcessLineWithOnlyStart: one session of zero seconds. */
  lemma OnlyStart()
    ensures ProcessFileAsList(ONLY_START) == Success([UserResult("ALICE99", 1, 0)])
  {
    OnlyStartParses();
    OnlyStartFacts();
    OneUserFile(ONLY_START, ONLY_START_EVENTS, "ALICE99", 1, 0);
  }

  lemma RenderAlice99140001End()
    ensures Render(Pieces(14, 0, 1, "ALICE99", "End")) == "14:00:01 ALICE99 End"
  {
  }

  const START_END: seq<string> :=
    ["14:00:00 ALICE99 Start",
     "14:00:01 ALICE99 End"]

  const START_END_EVENTS: seq<Pieces> :=
    [Pieces(14, 0, 0, "ALICE99", "Start"),
     Pieces(14, 0, 1, "ALICE99", "End")]

  lemma StartEndEvents()
    ensures AllEvents(START_END_EVENTS)
  {
    EventsOfPlainUser(START_END_EVENTS, "ALICE99");
  }

  lemma StartEndRenders()
    ensures AllEvents(START_END_EVENTS) && RendersAs(START_END, START_END_EVENTS)
  {
    StartEndEvents();
    RenderAlice99140000Start();
    assert START_END[0] == Render(START_END_EVENTS[0]);
    RenderAlice99140001End();
    assert START_END[1] == Render(START_END_EVENTS[1]);
  }

  lemma StartEndParses()
    ensures ParseAllTheLines(START_END) == START_END_EVENTS
  {
    StartEndRenders();
    ParsesAs(START_END, START_END_EVENTS);
  }

  lemma StartEndInDay()
    ensures AllInDay(START_END_EVENTS)
  {
  }

  lemma StartEndReplay1()
    ensures Replay(START_END_EVENTS[..1]) == [Session("ALICE99", Some(50400), None)]
  {
    var es := START_END_EVENTS;
    StartEndInDay();
    assert es[..0] == [];
    var ss := [];
    assert es[0].action == "Start" && TimeOf(es[0]) == 50400;
    StepStart(es, 0, ss);
  }

  lemma StartEndReplay()
    ensures Replay(START_END_EVENTS) == [Session("ALICE99", Some(50400), Some(50401))]
  {
    var es := START_END_EVENTS;
    StartEndInDay();
    StartEndReplay1();
    assert es[..2] == es;
    var ss := [Session("ALICE99", Some(50400), None)];
    assert es[1].action == "End" && TimeOf(es[1]) == 50401;
    assert IsFirstOpen(ss, 0);
    StepClose(es, 1, ss, 0);
    assert Replay(es[..2]) == [Session("ALICE99", Some(50400), Some(50401))];
  }

  lemma StartEndBill()
    ensures Billable([Session("ALICE99", Some(50400), Some(50401))], 50400, 50401) == 1
  {
    var s0 := Session("ALICE99", Some(50400), Some(50401));
    BillableSnoc([], s0, 50400, 50401);
    assert [] + [s0] == [s0];
  }

  lemma StartEndFacts()
    ensures var es := START_END_EVENTS;
      && |es| > 0 && AllInDay(es) && OneUser(es, "ALICE99")
      && |Replay(es)| == 1
      && Billable(Replay(es), TimeOf(es[0]), TimeOf(es[|es| - 1])) == 1
  {
    var es := START_END_EVENTS;
    assert |es| > 0 && AllInDay(es) && OneUser(es, "ALICE99");
    assert TimeOf(es[0]) == 50400 && TimeOf(es[|es| - 1]) == 50401;
    StartEndReplay();
    StartEndBill();
  }

  /** testProcessLineWithStartEnd: one session of one second. */
  lemma StartEnd()
    ensures ProcessFileAsList(START_END) == Success([UserResult("ALICE99", 1, 1)])
  {
    StartEndParses();
    StartEndFacts();
    OneUserFile(START_END, START_END_EVENTS, "ALICE99", 1, 1);
  }

  lemma RenderAlice99140002End()
    ensures Render(Pieces(14, 0, 2, "ALICE99", "End")) == "14:00:02 ALICE99 End"
  {
  }

  const THREE_ROWS: seq<string> :=
    ["14:00:00 ALICE99 Start",
     "14:00:01 ALICE99 End",
     "14:00:02 ALICE99 End"]

  const THREE_ROWS_EVENTS: seq<Pieces> :=
    [Pieces(14, 0, 0, "ALICE99", "Start"),
     Pieces(14, 0, 1, "ALICE99", "End"),
     Pieces(14, 0, 2, "ALICE99", "End")]

  lemma ThreeRowsEvents()
    ensures AllEvents(THREE_ROWS_EVENTS)
  {
    EventsOfPlainUser(THREE_ROWS_EVENTS, "ALICE99");
  }

  lemma ThreeRowsRenders()
    ensures AllEvents(THREE_ROWS_EVENTS) && RendersAs(THREE_ROWS, THREE_ROWS_EVENTS)
  {
    ThreeRowsEvents();
    RenderAlice99140000Start();
    assert THREE_ROWS[0] == Render(THREE_ROWS_EVENTS[0]);
    RenderAlice99140001End();
    assert THREE_ROWS[1] == Render(THREE_ROWS_EVENTS[1]);
    RenderAlice99140002End();
    assert THREE_ROWS[2] == Render(THREE_ROWS_EVENTS[2]);
  }

  lemma ThreeRowsParses()
    ensures ParseAllTheLines(THREE_ROWS) == THREE_ROWS_EVENTS
  {
    ThreeRowsRenders();
    ParsesAs(THREE_ROWS, THREE_ROWS_EVENTS);
  }

  lemma ThreeRowsInDay()
    ensures AllInDay(THREE_ROWS_EVENTS)
  {
  }

  lemma ThreeRowsReplay1()
    ensures Replay(THREE_ROWS_EVENTS[..1]) == [Session("ALICE99", Some(50400), None)]
  {
    var es := THREE_ROWS_EVENTS;
    ThreeRowsInDay();
    assert es[..0] == [];
    var ss := [];
    assert es[0].action == "Start" && TimeOf(es[0]) == 50400;
    StepStart(es, 0, ss);
  }

  lemma ThreeRowsReplay2()
    ensures Replay(THREE_ROWS_EVENTS[..2]) == [Session("ALICE99", Some(50400), Some(50401))]
  {
    var es := THREE_ROWS_EVENTS;
    ThreeRowsInDay();
    ThreeRowsReplay1();
    var ss := [Session("ALICE99", Some(50400), None)];
    assert es[1].action == "End" && TimeOf(es[1]) == 50401;
    assert IsFirstOpen(ss, 0);
    StepClose(es, 1, ss, 0);
  }

  lemma ThreeRowsReplay()
    ensures Replay(THREE_ROWS_EVENTS) == [Session("ALICE99", Some(50400), Some(50401)), Session("ALICE99", None, Some(50402))]
  {
    var es := THREE_ROWS_EVENTS;
    ThreeRowsInDay();
    ThreeRowsReplay2();
    assert es[..3] == es;
    var ss := [Session("ALICE99", Some(50400), Some(50401))];
    assert es[2].action == "End" && TimeOf(es[2]) == 50402;
    assert AllClosed(ss);
    StepOrphan(es, 2, ss);
    assert Replay(es[..3]) == [Session("ALICE99", Some(50400), Some(50401)), Session("ALICE99", None, Some(50402))];
  }

  lemma ThreeRowsBill()
    ensures Billable([Session("ALICE99", Some(50400), Some(50401)), Session("ALICE99", None, Some(50402))], 50400, 50402) == 3
  {
    var s0, s1 := Session("ALICE99", Some(50400), Some(50401)), Session("ALICE99", None, Some(50402));
    BillableSnoc([], s0, 50400, 50402);
    assert [] + [s0] == [s0];
    BillableSnoc([s0], s1, 50400, 50402);
    assert [s0] + [s1] == [s0, s1];
  }

  lemma ThreeRowsFacts()
    ensures var es := THREE_ROWS_EVENTS;
      && |es| > 0 && AllInDay(es) && OneUser(es, "ALICE99")
      && |Replay(es)| == 2
      && Billable(Replay(es), TimeOf(es[0]), TimeOf(es[|es| - 1])) == 3
  {
    var es := THREE_ROWS_EVENTS;
    assert |es| > 0 && AllInDay(es) && OneUser(es, "ALICE99");
    assert TimeOf(es[0]) == 50400 && TimeOf(es[|es| - 1]) == 50402;
    ThreeRowsReplay();
    ThreeRowsBill();
  }

  /** testProcessLineWithThreeRows: the extra End is a second session reaching
      back to the start of the log, 1 + 2 seconds. */
  lemma ThreeRows()
    ensures ProcessFileAsList(THREE_ROWS) == Success([UserResult("ALICE99", 2, 3)])
  {
    ThreeRowsParses();
    ThreeRowsFacts();
    OneUserFile(THREE_ROWS, THREE_ROWS_EVENTS, "ALICE99", 2, 3);
  }

  lemma RenderAlice99140203Start()
    ensures Render(Pieces(14, 2, 3, "ALICE99", "Start")) == "14:02:03 ALICE99 Start"
  {
  }

  lemma RenderAlice99140234End()
    ensures Render(Pieces(14, 2, 34, "ALICE99", "End")) == "14:02:34 ALICE99 End"
  {
  }

  lemma RenderAlice99140258Start()
    ensures Render(Pieces(14, 2, 58, "ALICE99", "Start")) == "14:02:58 ALICE99 Start"
  {
  }

  lemma RenderAlice99140333Start()
    ensures Render(Pieces(14, 3, 33, "ALICE99", "Start")) == "14:03:33 ALICE99 Start"
  {
  }

  lemma RenderAlice99140335End()
    ensures Render(Pieces(14, 3, 35, "ALICE99", "End")) == "14:03:35 ALICE99 End"
  {
  }

  lemma RenderAlice99140405End()
    ensures Render(Pieces(14, 4, 5, "ALICE99", "End")) == "14:04:05 ALICE99 End"
  {
  }

  lemma RenderAlice99140423End()
    ensures Render(Pieces(14, 4, 23, "ALICE99", "End")) == "14:04:23 ALICE99 End"
  {
  }

  const ALICE_LOG: seq<string> :=
    ["14:02:03 ALICE99 Start",
     "14:02:34 ALICE99 End",
     "14:02:58 ALICE99 Start",
     "14:03:33 ALICE99 Start",
     "14:03:35 ALICE99 End",
     "14:04:05 ALICE99 End",
     "14:04:23 ALICE99 End"]

  const ALICE_LOG_EVENTS: seq<Pieces> :=
    [Pieces(14, 2, 3, "ALICE99", "Start"),
     Pieces(14, 2, 34, "ALICE99", "End"),
     Pieces(14, 2, 58, "ALICE99", "Start"),
     Pieces(14, 3, 33, "ALICE99", "Start"),
     Pieces(14, 3, 35, "ALICE99", "End"),
     Pieces(14, 4, 5, "ALICE99", "End"),
     Pieces(14, 4, 23, "ALICE99", "End")]

  lemma AliceEvents()
    ensures AllEvents(ALICE_LOG_EVENTS)
  {
    EventsOfPlainUser(ALICE_LOG_EVENTS, "ALICE99");
  }

  lemma AliceRenders()
    ensures AllEvents(ALICE_LOG_EVENTS) && RendersAs(ALICE_LOG, ALICE_LOG_EVENTS)
  {
    AliceEvents();
    RenderAlice99140203Start();
    assert ALICE_LOG[0] == Render(ALICE_LOG_EVENTS[0]);
    RenderAlice99140234End();
    assert ALICE_LOG[1] == Render(ALICE_LOG_EVENTS[1]);
    RenderAlice99140258Start();
    assert ALICE_LOG[2] == Render(ALICE_LOG_EVENTS[2]);
    RenderAlice99140333Start();
    assert ALICE_LOG[3] == Render(ALICE_LOG_EVENTS[3]);
    RenderAlice99140335End();
    assert ALICE_LOG[4] == Render(ALICE_LOG_EVENTS[4]);
    RenderAlice99140405End();
    assert ALICE_LOG[5] == Render(ALICE_LOG_EVENTS[5]);
    RenderAlice99140423End();
    assert ALICE_LOG[6] == Render(ALICE_LOG_EVENTS[6]);
  }

  lemma AliceParses()
    ensures ParseAllTheLines(ALICE_LOG) == ALICE_LOG_EVENTS
  {
    AliceRenders();
    ParsesAs(ALICE_LOG, ALICE_LOG_EVENTS);
  }

  lemma AliceInDay()
    ensures AllInDay(ALICE_LOG_EVENTS)
  {
  }

  lemma AliceReplay1()
    ensures Replay(ALICE_LOG_EVENTS[..1]) == [Session("ALICE99", Some(50523), None)]
  {
    var es := ALICE_LOG_EVENTS;
    AliceInDay();
    assert es[..0] == [];
    var ss := [];
    assert es[0].action == "Start" && TimeOf(es[0]) == 50523;
    StepStart(es, 0, ss);
  }

  lemma AliceReplay2()
    ensures Replay(ALICE_LOG_EVENTS[..2]) == [Session("ALICE99", Some(50523), Some(50554))]
  {
    var es := ALICE_LOG_EVENTS;
    AliceInDay();
    AliceReplay1();
    var ss := [Session("ALICE99", Some(50523), None)];
    assert es[1].action == "End" && TimeOf(es[1]) == 50554;
    assert IsFirstOpen(ss, 0);
    StepClose(es, 1, ss, 0);
  }

  lemma AliceReplay3()
    ensures Replay(ALICE_LOG_EVENTS[..3]) == [Session("ALICE99", Some(50523), Some(50554)), Session("ALICE99", Some(50578), None)]
  {
    var es := ALICE_LOG_EVENTS;
    AliceInDay();
    AliceReplay2();
    var ss := [Session("ALICE99", Some(50523), Some(50554))];
    assert es[2].action == "Start" && TimeOf(es[2]) == 50578;
    StepStart(es, 2, ss);
  }

  lemma AliceReplay4()
    ensures Replay(ALICE_LOG_EVENTS[..4]) == [Session("ALICE99", Some(50523), Some(50554)), Session("ALICE99", Some(50578), None), Session("ALICE99", Some(50613), None)]
  {
    var es := ALICE_LOG_EVENTS;
    AliceInDay();
    AliceReplay3();
    var ss := [Session("ALICE99", Some(50523), Some(50554)), Session("ALICE99", Some(50578), None)];
    assert es[3].action == "Start" && TimeOf(es[3]) == 50613;
    StepStart(es, 3, ss);
  }

  lemma AliceReplay5()
    ensures Replay(ALICE_LOG_EVENTS[..5]) == [Session("ALICE99", Some(50523), Some(50554)), Session("ALICE99", Some(50578), Some(50615)), Session("ALICE99", Some(50613), None)]
  {
    var es := ALICE_LOG_EVENTS;
    AliceInDay();
    AliceReplay4();
    var ss := [Session("ALICE99", Some(50523), Some(50554)), Session("ALICE99", Some(50578), None), Session("ALICE99", Some(50613), None)];
    assert es[4].action == "End" && TimeOf(es[4]) == 50615;
    assert IsFirstOpen(ss, 1);
    StepClose(es, 4, ss, 1);
  }

  lemma AliceReplay6()
    ensures Replay(ALICE_LOG_EVENTS[..6]) == [Session("ALICE99", Some(50523), Some(50554)), Session("ALICE99", Some(50578), Some(50615)), Session("ALICE99", Some(50613), Some(50645))]
  {
    var es := ALICE_LOG_EVENTS;
    AliceInDay();
    AliceReplay5();
    var ss := [Session("ALICE99", Some(50523), Some(50554)), Session("ALICE99", Some(50578), Some(50615)), Session("ALICE99", Some(50613), None)];
    assert es[5].action == "End" && TimeOf(es[5]) == 50645;
    assert IsFirstOpen(ss, 2);
    StepClose(es, 5, ss, 2);
  }

  lemma AliceReplay()
    ensures Replay(ALICE_LOG_EVENTS) == [Session("ALICE99", Some(50523), Some(50554)), Session("ALICE99", Some(50578), Some(50615)), Session("ALICE99", Some(50613), Some(50645)), Session("ALICE99", None, Some(50663))]
  {
    var es := ALICE_LOG_EVENTS;
    AliceInDay();
    AliceReplay6();
    assert es[..7] == es;
    var ss := [Session("ALICE99", Some(50523), Some(50554)), Session("ALICE99", Some(50578), Some(50615)), Session("ALICE99", Some(50613), Some(50645))];
    assert es[6].action == "End" && TimeOf(es[6]) == 50663;
    assert AllClosed(ss);
    StepOrphan(es, 6, ss);
    assert Replay(es[..7]) == [Session("ALICE99", Some(50523), Some(50554)), Session("ALICE99", Some(50578), Some(50615)), Session("ALICE99", Some(50613), Some(50645)), Session("ALICE99", None, Some(50663))];
  }

  lemma AliceBill()
    ensures Billable([Session("ALICE99", Some(50523), Some(50554)), Session("ALICE99", Some(50578), Some(50615)), Session("ALICE99", Some(50613), Some(50645)), Session("ALICE99", None, Some(50663))], 50523, 50663) == 240
  {
    var s0, s1, s2, s3 := Session("ALICE99", Some(50523), Some(50554)), Session("ALICE99", Some(50578), Some(50615)), Session("ALICE99", Some(50613), Some(50645)), Session("ALICE99", None, Some(50663));
    BillableSnoc([], s0, 50523, 50663);
    assert [] + [s0] == [s0];
    BillableSnoc([s0], s1, 50523, 50663);
    assert [s0] + [s1] == [s0, s1];
    BillableSnoc([s0, s1], s2, 50523, 50663);
    assert [s0, s1] + [s2] == [s0, s1, s2];
    BillableSnoc([s0, s1, s2], s3, 50523, 50663);
    assert [s0, s1, s2] + [s3] == [s0, s1, s2, s3];
  }

  lemma AliceFacts()
    ensures var es := ALICE_LOG_EVENTS;
      && |es| > 0 && AllInDay(es) && OneUser(es, "ALICE99")
      && |Replay(es)| == 4
      && Billable(Replay(es), TimeOf(es[0]), TimeOf(es[|es| - 1])) == 240
  {
    var es := ALICE_LOG_EVENTS;
    assert |es| > 0 && AllInDay(es) && OneUser(es, "ALICE99");
    assert TimeOf(es[0]) == 50523 && TimeOf(es[|es| - 1]) == 50663;
    AliceReplay();
    AliceBill();
  }

  /** testProcessLineWithAlice: each End closes the OLDEST open session, and the
      last End reaches back to the start of the log: 31 + 37 + 32 + 140 seconds. */
  lemma Alice()
    ensures ProcessFileAsList(ALICE_LOG) == Success([UserResult("ALICE99", 4, 240)])
  {
    AliceParses();
    AliceFacts();
    OneUserFile(ALICE_LOG, ALICE_LOG_EVENTS, "ALICE99", 4, 240);
  }

  lemma RenderCharlie140205End()
    ensures Render(Pieces(14, 2, 5, "CHARLIE", "End")) == "14:02:05 CHARLIE End"
  {
  }

  lemma RenderCharlie140302Start()
    ensures Render(Pieces(14, 3, 2, "CHARLIE", "Start")) == "14:03:02 CHARLIE Start"
  {
  }

  lemma RenderCharlie140337End()
    ensures Render(Pieces(14, 3, 37, "CHARLIE", "End")) == "14:03:37 CHARLIE End"
  {
  }

  lemma RenderCharlie140441Start()
    ensures Render(Pieces(14, 4, 41, "CHARLIE", "Start")) == "14:04:41 CHARLIE Start"
  {
  }

  const CHARLIE_LOG: seq<string> :=
    ["14:02:05 CHARLIE End",
     "14:03:02 CHARLIE Start",
     "14:03:37 CHARLIE End",
     "14:04:41 CHARLIE Start"]

  const CHARLIE_LOG_EVENTS: seq<Pieces> :=
    [Pieces(14, 2, 5, "CHARLIE", "End"),
     Pieces(14, 3, 2, "CHARLIE", "Start"),
     Pieces(14, 3, 37, "CHARLIE", "End"),
     Pieces(14, 4, 41, "CHARLIE", "Start")]

  lemma CharlieEvents()
    ensures AllEvents(CHARLIE_LOG_EVENTS)
  {
    EventsOfPlainUser(CHARLIE_LOG_EVENTS, "CHARLIE");
  }

  lemma CharlieRenders()
    ensures AllEvents(CHARLIE_LOG_EVENTS) && RendersAs(CHARLIE_LOG, CHARLIE_LOG_EVENTS)
  {
    CharlieEvents();
    RenderCharlie140205End();
    assert CHARLIE_LOG[0] == Render(CHARLIE_LOG_EVENTS[0]);
    RenderCharlie140302Start();
    assert CHARLIE_LOG[1] == Render(CHARLIE_LOG_EVENTS[1]);
    RenderCharlie140337End();
    assert CHARLIE_LOG[2] == Render(CHARLIE_LOG_EVENTS[2]);
    RenderCharlie140441Start();
    assert CHARLIE_LOG[3] == Render(CHARLIE_LOG_EVENTS[3]);
  }

  lemma CharlieParses()
    ensures ParseAllTheLines(CHARLIE_LOG) == CHARLIE_LOG_EVENTS
  {
    CharlieRenders();
    ParsesAs(CHARLIE_LOG, CHARLIE_LOG_EVENTS);
  }

  lemma CharlieInDay()
    ensures AllInDay(CHARLIE_LOG_EVENTS)
  {
  }

  lemma CharlieReplay1()
    ensures Replay(CHARLIE_LOG_EVENTS[..1]) == [Session("CHARLIE", None, Some(50525))]
  {
    var es := CHARLIE_LOG_EVENTS;
    CharlieInDay();
    assert es[..0] == [];
    var ss := [];
    assert es[0].action == "End" && TimeOf(es[0]) == 50525;
    assert AllClosed(ss);
    StepOrphan(es, 0, ss);
  }

  lemma CharlieReplay2()
    ensures Replay(CHARLIE_LOG_EVENTS[..2]) == [Session("CHARLIE", None, Some(50525)), Session("CHARLIE", Some(50582), None)]
  {
    var es := CHARLIE_LOG_EVENTS;
    CharlieInDay();
    CharlieReplay1();
    var ss := [Session("CHARLIE", None, Some(50525))];
    assert es[1].action == "Start" && TimeOf(es[1]) == 50582;
    StepStart(es, 1, ss);
  }

  lemma CharlieReplay3()
    ensures Replay(CHARLIE_LOG_EVENTS[..3]) == [Session("CHARLIE", None, Some(50525)), Session("CHARLIE", Some(50582), Some(50617))]
  {
    var es := CHARLIE_LOG_EVENTS;
    CharlieInDay();
    CharlieReplay2();
    var ss := [Session("CHARLIE", None, Some(50525)), Session("CHARLIE", Some(50582), None)];
    assert es[2].action == "End" && TimeOf(es[2]) == 50617;
    assert IsFirstOpen(ss, 1);
    StepClose(es, 2, ss, 1);
  }

  lemma CharlieReplay()
    ensures Replay(CHARLIE_LOG_EVENTS) == [Session("CHARLIE", None, Some(50525)), Session("CHARLIE", Some(50582), Some(50617)), Session("CHARLIE", Some(50681), None)]
  {
    var es := CHARLIE_LOG_EVENTS;
    CharlieInDay();
    CharlieReplay3();
    assert es[..4] == es;
    var ss := [Session("CHARLIE", None, Some(50525)), Session("CHARLIE", Some(50582), Some(50617))];
    assert es[3].action == "Start" && TimeOf(es[3]) == 50681;
    StepStart(es, 3, ss);
    assert Replay(es[..4]) == [Session("CHARLIE", None, Some(50525)), Session("CHARLIE", Some(50582), Some(50617)), Session("CHARLIE", Some(50681), None)];
  }

  lemma CharlieBill()
    ensures Billable([Session("CHARLIE", None, Some(50525)), Session("CHARLIE", Some(50582), Some(50617)), Session("CHARLIE", Some(50681), None)], 50525, 50681) == 35
  {
    var s0, s1, s2 := Session("CHARLIE", None, Some(50525)), Session("CHARLIE", Some(50582), Some(50617)), Session("CHARLIE", Some(50681), None);
    BillableSnoc([], s0, 50525, 50681);
    assert [] + [s0] == [s0];
    BillableSnoc([s0], s1, 50525, 50681);
    assert [s0] + [s1] == [s0, s1];
    BillableSnoc([s0, s1], s2, 50525, 50681);
    assert [s0, s1] + [s2] == [s0, s1, s2];
  }

  lemma CharlieFacts()
    ensures var es := CHARLIE_LOG_EVENTS;
      && |es| > 0 && AllInDay(es) && OneUser(es, "CHARLIE")
      && |Replay(es)| == 3
      && Billable(Replay(es), TimeOf(es[0]), TimeOf(es[|es| - 1])) == 35
  {
    var es := CHARLIE_LOG_EVENTS;
    assert |es| > 0 && AllInDay(es) && OneUser(es, "CHARLIE");
    assert TimeOf(es[0]) == 50525 && TimeOf(es[|es| - 1]) == 50681;
    CharlieReplay();
    CharlieBill();
  }

  /** testProcessLineWithCHARLIE: a leading End and a trailing Start are closed by
      the window bounds and bill nothing: 0 + 35 + 0 seconds. */
  lemma Charlie()
    ensures ProcessFileAsList(CHARLIE_LOG) == Success([UserResult("CHARLIE", 3, 35)])
  {
    CharlieParses();
    CharlieFacts();
    OneUserFile(CHARLIE_LOG, CHARLIE_LOG_EVENTS, "CHARLIE", 3, 35);
  }

  /** testProcessLineNullOrEmpty, testProcessLineInvalid, testProcessLineInvalidPartial:
      an empty line, a line without the time head, and a line without an action. */
  lemma ParseLineRejected()
    ensures ParseLine("").None?
    ensures ParseLine("xxx").None?
    ensures ParseLine("14:02:03 ALICE99").None?
  {
    assert "14:02:03 ALICE99"[9..] == "ALICE99";
  }

  /** testProcessLineValidLine. */
  lemma ParseLineAccepted()
    ensures ParseLine("14:02:03 ALICE99 Start") == Some(Pieces(14, 2, 3, "ALICE99", "Start"))
  {
    RenderAlice99140203Start();
    ParseRender(Pieces(14, 2, 3, "ALICE99", "Start"));
  }

  /** testProcessLineNoEnding: a Start on no list gives one open session. */
  lemma ProcessLineNoEnding()
    ensures ProcessLine(Pieces(14, 2, 11, "ALICE99", "Start"), [])
         == [Session("ALICE99", Some(SecondOfDay(14, 2, 11)), None)]
  {
  }

  /** testProcessLineOneRowStart: an End closes the waiting session in place. */
  lemma ProcessLineOneRowStart()
    ensures ProcessLine(Pieces(14, 2, 11, "ALICE99", "End"),
                        [MakeSession("ALICE99", Some(SecondOfDay(14, 1, 56)), None)])
         == [Session("ALICE99", Some(SecondOfDay(14, 1, 56)), Some(SecondOfDay(14, 2, 11)))]
  {
  }

  /** The session list `processLines` files under the only user of a log. */
  lemma OneUserSessions(es: seq<Pieces>, u: string)
    requires AllInDay(es) && |es| > 0 && OneUser(es, u)
    ensures Get(ProcessLines(es), u) == Some(Replay(es))
  {
    ProcessLinesLookup(es, u);
    EventsOfOneUser(es, u);
    assert es[0].userId == u && UserIds(es)[0] == u;
  }

  /** testProcessLineTwoEnds: an End with nothing waiting opens a new session each time. */
  lemma ProcessLinesTwoEnds()
    ensures var es := [Pieces(14, 2, 11, "ALICE99", "End"), Pieces(14, 2, 12, "ALICE99", "End")];
      |Get(ProcessLines(es), "ALICE99").value| == 2
  {
    var es := [Pieces(14, 2, 11, "ALICE99", "End"), Pieces(14, 2, 12, "ALICE99", "End")];
    OneUserSessions(es, "ALICE99");
    assert es[..0] == [];
    ReplayPrefix(es, 0);
    ReplayPrefix(es, 1);
    assert es[..2] == es;
  }

  /** testProcessLineTwoStarts: Starts never merge. */
  lemma ProcessLinesTwoStarts()
    ensures var es := [Pieces(14, 2, 11, "ALICE99", "Start"), Pieces(14, 2, 12, "ALICE99", "Start")];
      |Get(ProcessLines(es), "ALICE99").value| == 2
  {
    var es := [Pieces(14, 2, 11, "ALICE99", "Start"), Pieces(14, 2, 12, "ALICE99", "Start")];
    OneUserSessions(es, "ALICE99");
    assert es[..0] == [];
    ReplayPrefix(es, 0);
    ReplayPrefix(es, 1);
    assert es[..2] == es;
  }

  /** testProcessLineEmpty: an empty log bills nobody. */
  lemma EmptyLog()
    ensures ProcessFileAsList([]) == Success([])
  {
  }

  /** testProcessLineWithAllLinesInvalid: lines that never match bill nobody. */
  lemma AllLinesInvalid()
    ensures ProcessFileAsList(["XXXX", "XXX", "SSS"]) == Success([])
  {
    assert ParseAllTheLines(["XXXX", "XXX", "SSS"]) == [];
  }
}
