/** Stage 1 of the billing pipeline: splitting a raw log line "HH:MM:SS <user> <action>"
    into its pieces and keeping only the Start/End events (`FairBilling.parseLine`,
    `FairBilling.parseAllTheLines`). The Java regular expression
    `^(\d\d):(\d\d):(\d\d) (.*) (.*)$` is written out by hand. */
module LineParser {
  import opened Optional
  import opened TimeOfDay

  const START_ACTION: string := "Start"
  const END_ACTION: string := "End"

  /** A line that matched the pattern (`LineInPieces` with `valid` set): the three
      two-digit time fields as numbers, the user (group 4) and the action (group 5). */
  datatype Pieces = Pieces(hours: nat, minutes: nat, seconds: nat, userId: string, action: string)

  /** `\d` without the Unicode flag. */
  predicate IsDigit(c: char) {
    '0' <= c <= '9'
  }

  function DigitValue(c: char): (d: nat)
    requires IsDigit(c)
    ensures d < 10
  {
    c as int - '0' as int
  }

  function DigitChar(d: nat): (c: char)
    requires d < 10
    ensures IsDigit(c) && DigitValue(c) == d
  {
    (d + '0' as int) as char
  }

  /** The characters Java's `.` refuses to match when no flags are given. */
  predicate IsLineTerminator(c: char) {
    c == '\n' || c == '\r' || c == '\U{85}' || c == '\U{2028}' || c == '\U{2029}'
  }

  /** `s` is matched by `.*`. */
  predicate NoLineTerminator(s: string) {
    forall i :: 0 <= i < |s| ==> !IsLineTerminator(s[i])
  }

  /** The index of the last space in `s`, if any: where greedy `(.*) (.*)` splits. */
  function LastSpace(s: string): (r: Option<nat>)
    ensures r.Some? ==> r.value < |s| && s[r.value] == ' '
                        && forall j :: r.value < j < |s| ==> s[j] != ' '
    ensures r.None? ==> forall j :: 0 <= j < |s| ==> s[j] != ' '
  {
    if |s| == 0 then None
    else if s[|s| - 1] == ' ' then Some(|s| - 1)
    else LastSpace(s[..|s| - 1])
  }

  /** The fixed-width head "DD:DD:DD " of a matching line. */
  predicate HasTimePrefix(line: string) {
    && |line| >= 9
    && IsDigit(line[0]) && IsDigit(line[1]) && line[2] == ':'
    && IsDigit(line[3]) && IsDigit(line[4]) && line[5] == ':'
    && IsDigit(line[6]) && IsDigit(line[7]) && line[8] == ' '
  }

  function TwoDigitValue(a: char, b: char): (n: nat)
    requires IsDigit(a) && IsDigit(b)
    ensures n < 100
  {
    DigitValue(a) * 10 + DigitValue(b)
  }

  /** Pieces that some line can produce: two-digit fields, no line terminator anywhere,
      and no space in the action (the user runs to the last space). */
  predicate WellFormed(p: Pieces) {
    && p.hours < 100 && p.minutes < 100 && p.seconds < 100
    && NoLineTerminator(p.userId) && NoLineTerminator(p.action)
    && forall j :: 0 <= j < |p.action| ==> p.action[j] != ' '
  }

  function TwoDigits(n: nat): (s: string)
    requires n < 100
    ensures |s| == 2 && IsDigit(s[0]) && IsDigit(s[1])
  {
    [DigitChar(n / 10), DigitChar(n % 10)]
  }

  /** The line text that the pattern splits into `p`: the reference the parser is judged by. */
  function Render(p: Pieces): (line: string)
    requires p.hours < 100 && p.minutes < 100 && p.seconds < 100
  {
    TwoDigits(p.hours) + ":" + TwoDigits(p.minutes) + ":" + TwoDigits(p.seconds)
      + " " + p.userId + " " + p.action
  }

  /** Two digit characters are the rendering of their value. */
  lemma DigitsRender(a: char, b: char)
    requires IsDigit(a) && IsDigit(b)
    ensures TwoDigits(TwoDigitValue(a, b)) == [a, b]
  {
  }

  /** A line with the time head and a space at `k` in its tail is the concatenation of
      its fields. */
  lemma LineSplits(line: string, k: nat)
    requires HasTimePrefix(line) && k < |line| - 9 && line[9 + k] == ' '
    requires NoLineTerminator(line[9..])
    ensures var rest := line[9..];
      && line == [line[0], line[1]] + ":" + [line[3], line[4]] + ":" + [line[6], line[7]]
                 + " " + rest[..k] + " " + rest[k + 1..]
      && NoLineTerminator(rest[..k]) && NoLineTerminator(rest[k + 1..])
  {
    var rest := line[9..];
    assert rest == rest[..k] + " " + rest[k + 1..];
    assert line == line[..9] + rest;
    assert line[..9] == [line[0], line[1]] + ":" + [line[3], line[4]] + ":" + [line[6], line[7]] + " ";
    var tail := rest[k + 1..];
    assert forall i :: 0 <= i < |tail| ==> tail[i] == rest[k + 1 + i];
  }

  /** `FairBilling.parseLine`: `None` for an empty line or one the pattern does not match
      in full; otherwise the groups of the match. */
  function ParseLine(line: string): (r: Option<Pieces>)
    ensures |line| == 0 ==> r.None?
    ensures r.Some? ==> WellFormed(r.value) && Render(r.value) == line
  {
    if |line| == 0 then None
    else if !HasTimePrefix(line) then None
    else
      var rest := line[9..];
      if !NoLineTerminator(rest) then None
      else match LastSpace(rest)
        case None => None
        case Some(k) =>
          DigitsRender(line[0], line[1]);
          DigitsRender(line[3], line[4]);
          DigitsRender(line[6], line[7]);
          LineSplits(line, k);
          Some(Pieces(TwoDigitValue(line[0], line[1]), TwoDigitValue(line[3], line[4]),
                      TwoDigitValue(line[6], line[7]), rest[..k], rest[k + 1..]))
  }

  lemma TwoDigitsValue(n: nat)
    requires n < 100
    ensures TwoDigitValue(TwoDigits(n)[0], TwoDigits(n)[1]) == n
  {
  }

  /** The tail "user action" of a rendered line splits at the space before the action. */
  lemma SplitRest(userId: string, action: string)
    requires NoLineTerminator(userId) && NoLineTerminator(action)
    requires forall j :: 0 <= j < |action| ==> action[j] != ' '
    ensures var rest := userId + " " + action;
      && NoLineTerminator(rest)
      && LastSpace(rest) == Some(|userId|)
      && rest[..|userId|] == userId && rest[|userId| + 1..] == action
  {
    var rest := userId + " " + action;
    var k := |userId|;
    forall i | 0 <= i < |rest|
      ensures !IsLineTerminator(rest[i])
    {
      if i < k {
        assert rest[i] == userId[i];
      } else if i > k {
        assert rest[i] == action[i - k - 1];
      }
    }
    forall j | k < j < |rest|
      ensures rest[j] != ' '
    {
      assert rest[j] == action[j - k - 1];
    }
    assert rest[k] == ' ';
    assert rest[..k] == userId;
    assert rest[k + 1..] == action;
  }

  /** A rendered line has the time head, the two-digit fields in place, and the rest. */
  lemma RenderShape(p: Pieces)
    requires p.hours < 100 && p.minutes < 100 && p.seconds < 100
    ensures var line := Render(p);
      && HasTimePrefix(line)
      && line[0] == TwoDigits(p.hours)[0] && line[1] == TwoDigits(p.hours)[1]
      && line[3] == TwoDigits(p.minutes)[0] && line[4] == TwoDigits(p.minutes)[1]
      && line[6] == TwoDigits(p.seconds)[0] && line[7] == TwoDigits(p.seconds)[1]
      && line[9..] == p.userId + " " + p.action
  {
  }

  /** Every well-formed `p` is recovered from its own line. */
  lemma ParseRender(p: Pieces)
    requires WellFormed(p)
    ensures ParseLine(Render(p)) == Some(p)
  {
    RenderShape(p);
    SplitRest(p.userId, p.action);
    TwoDigitsValue(p.hours);
    TwoDigitsValue(p.minutes);
    TwoDigitsValue(p.seconds);
  }

  /** A line is accepted with pieces `p` exactly when it is the full match of `p`. */
  lemma ParseLineIff(line: string, p: Pieces)
    ensures ParseLine(line) == Some(p) <==> WellFormed(p) && Render(p) == line
  {
    if WellFormed(p) && Render(p) == line {
      ParseRender(p);
    }
  }

  /** A line is rejected exactly when no well-formed pieces render to it. */
  lemma ParseLineRejects(line: string)
    ensures ParseLine(line).None? <==> forall p :: WellFormed(p) ==> Render(p) != line
  {
    if ParseLine(line).Some? {
      var p := ParseLine(line).value;
      assert WellFormed(p) && Render(p) == line;
    } else {
      forall p | WellFormed(p)
        ensures Render(p) != line
      {
        ParseRender(p);
      }
    }
  }

  /** The action survives the filter of `parseAllTheLines` (case-sensitive). */
  predicate IsEvent(p: Pieces) {
    p.action == START_ACTION || p.action == END_ACTION
  }

  /** The contribution of one line to the event list: its pieces, if it matched and
      carries Start or End. */
  function KeptEvent(line: string): (r: seq<Pieces>)
    ensures |r| <= 1
  {
    match ParseLine(line)
    case Some(p) => if IsEvent(p) then [p] else []
    case None => []
  }

  /** `FairBilling.parseAllTheLines`: the valid Start/End lines, in input order. */
  function ParseAllTheLines(lines: seq<string>): (r: seq<Pieces>)
    ensures |r| <= |lines|
    ensures forall i :: 0 <= i < |r| ==> IsEvent(r[i]) && WellFormed(r[i])
  {
    if |lines| == 0 then []
    else KeptEvent(lines[0]) + ParseAllTheLines(lines[1..])
  }

  /** The filter works line by line: parsing a concatenation concatenates the results. */
  lemma {:induction false} ParseAllTheLinesAppend(a: seq<string>, b: seq<string>)
    ensures ParseAllTheLines(a + b) == ParseAllTheLines(a) + ParseAllTheLines(b)
  {
    if |a| == 0 {
      assert a + b == b;
    } else {
      assert (a + b)[1..] == a[1..] + b;
      ParseAllTheLinesAppend(a[1..], b);
    }
  }

  /** An event is in the output exactly when some input line parses to it with a
      Start or End action. */
  lemma {:induction false} ParseAllTheLinesMembers(lines: seq<string>, p: Pieces)
    ensures p in ParseAllTheLines(lines)
        <==> exists i :: 0 <= i < |lines| && ParseLine(lines[i]) == Some(p) && IsEvent(p)
  {
    if |lines| > 0 {
      ParseAllTheLinesMembers(lines[1..], p);
      if p in ParseAllTheLines(lines) && p !in KeptEvent(lines[0]) {
        var i :| 0 <= i < |lines[1..]| && ParseLine(lines[1..][i]) == Some(p) && IsEvent(p);
        assert lines[i + 1] == lines[1..][i];
      }
      if exists i :: 0 <= i < |lines| && ParseLine(lines[i]) == Some(p) && IsEvent(p) {
        var i :| 0 <= i < |lines| && ParseLine(lines[i]) == Some(p) && IsEvent(p);
        if i > 0 {
          assert lines[1..][i - 1] == lines[i];
        }
      }
    }
  }

  /** Hours, minutes and seconds that `LocalTime.parse` accepts. */
  predicate InDay(p: Pieces) {
    IsTimeOfDay(p.hours, p.minutes, p.seconds)
  }

  /** `LocalTime.parse(hours + ":" + minutes + ":" + seconds)` for an in-range line. */
  function TimeOf(p: Pieces): (t: Time)
    requires InDay(p)
    ensures t / 3600 == p.hours && t % 3600 / 60 == p.minutes && t % 60 == p.seconds
  {
    SecondOfDay(p.hours, p.minutes, p.seconds)
  }
}
