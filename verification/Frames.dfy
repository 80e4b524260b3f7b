// Numbered frames, the one who writes them and the one who tells those it has
// from those it has not (src/frame.rs). JSON is left out: a line either is a
// frame or is text.
module Frames {
  import opened Events

  datatype FrameBody = EventBody(event: Event) | OutputBody(text: string)

  datatype Line = Framed(number: nat, body: FrameBody) | Raw(text: string)

  /// Where a line goes, if anywhere.
  datatype Routed = ToEvents(number: nat, event: Event) | ToOutput(text: string) | AlreadyCollected

  /// The highest frame number seen, and the number a replay runs up to: 0 when
  /// there is no replay.
  datatype StreamPosition = StreamPosition(lastSeq: nat, replayingTo: nat)
  {
    function Route(line: Line): (StreamPosition, Routed) {
      match line
      case Raw(text) => (this, if replayingTo > 0 then AlreadyCollected else ToOutput(text))
      case Framed(number, body) =>
        if number <= lastSeq then
          (this.(replayingTo := if number >= replayingTo then 0 else replayingTo), AlreadyCollected)
        else
          (StreamPosition(number, 0),
           match body
           case EventBody(event) => ToEvents(number, event)
           case OutputBody(text) => ToOutput(text))
    }
  }

  /// Where a collection with bookmark `lastSeq` begins.
  function After(lastSeq: nat): StreamPosition {
    StreamPosition(lastSeq, lastSeq)
  }

  const FROM_THE_START := StreamPosition(0, 0)

  function PositionAfter(p: StreamPosition, lines: seq<Line>): StreamPosition {
    if lines == [] then p
    else PositionAfter(p, lines[..|lines| - 1]).Route(lines[|lines| - 1]).0
  }

  /// What becomes of each line, in turn.
  function RoutedBy(p: StreamPosition, lines: seq<Line>): (routed: seq<Routed>)
    ensures |routed| == |lines|
  {
    if lines == [] then []
    else
      var n := |lines| - 1;
      RoutedBy(p, lines[..n]) + [PositionAfter(p, lines[..n]).Route(lines[n]).1]
  }

  /// A line collected for the first time.
  function Emitted(line: Line): Routed {
    match line
    case Raw(text) => ToOutput(text)
    case Framed(number, EventBody(event)) => ToEvents(number, event)
    case Framed(_, OutputBody(text)) => ToOutput(text)
  }

  function EmittedAll(lines: seq<Line>): seq<Routed> {
    seq(|lines|, i requires 0 <= i < |lines| => Emitted(lines[i]))
  }

  /// What reaches the two logs, in order.
  function Landed(routed: seq<Routed>): seq<Routed> {
    if routed == [] then []
    else
      var n := |routed| - 1;
      Landed(routed[..n]) + if routed[n] == AlreadyCollected then [] else [routed[n]]
  }

  function FrameCount(lines: seq<Line>): nat {
    if lines == [] then 0
    else FrameCount(lines[..|lines| - 1]) + if lines[|lines| - 1].Framed? then 1 else 0
  }

  /// Frames numbered 1, 2, ..., with other lines anywhere between them.
  ghost predicate InOrder(lines: seq<Line>) {
    forall i :: 0 <= i < |lines| && lines[i].Framed? ==> lines[i].number == FrameCount(lines[..i]) + 1
  }

  /// How many lines it takes to reach frame `k`: all of them if it is not
  /// there.
  function LinesThrough(lines: seq<Line>, k: nat): (n: nat)
    ensures n <= |lines|
  {
    if k == 0 then 0
    else if lines == [] then 0
    else if FrameCount(lines[..|lines| - 1]) < k then |lines|
    else LinesThrough(lines[..|lines| - 1], k)
  }

  // ----- positions -----

  /// Whatever the lines, a replay runs up to the highest number seen or is
  /// over: there is no third state.
  lemma {:induction false} ReplayIsToTheLastSeq(k: nat, lines: seq<Line>)
    ensures var p := PositionAfter(After(k), lines); p.replayingTo == 0 || p.replayingTo == p.lastSeq
    ensures PositionAfter(After(k), lines).lastSeq >= k
  {
    if lines != [] {
      ReplayIsToTheLastSeq(k, lines[..|lines| - 1]);
    }
  }

  /// Some frame of these has this number or a higher one.
  ghost predicate Reaches(lines: seq<Line>, number: nat) {
    exists i :: 0 <= i < |lines| && lines[i].Framed? && lines[i].number >= number
  }

  lemma ReachesOneMore(lines: seq<Line>, line: Line, number: nat)
    ensures Reaches(lines + [line], number) <==> Reaches(lines, number) || (line.Framed? && line.number >= number)
  {
    var all := lines + [line];
    if Reaches(lines, number) {
      var i :| 0 <= i < |lines| && lines[i].Framed? && lines[i].number >= number;
      assert all[i] == lines[i];
    }
    if line.Framed? && line.number >= number {
      assert all[|lines|] == line;
    }
  }

  /// Whatever the lines: the highest number seen is the bookmark's or some
  /// frame's, and a replay goes on until a frame reaches the bookmark.
  lemma {:induction false} PositionIsReached(k: nat, lines: seq<Line>, number: nat)
    ensures var p := PositionAfter(After(k), lines);
            && (number <= p.lastSeq <==> number <= k || Reaches(lines, number))
            && p.replayingTo == if k == 0 || Reaches(lines, k) then 0 else k
  {
    if lines != [] {
      hide Reaches;
      var n := |lines| - 1;
      assert lines == lines[..n] + [lines[n]];
      PositionIsReached(k, lines[..n], number);
      PositionIsReached(k, lines[..n], k);
      ReplayIsToTheLastSeq(k, lines[..n]);
      ReachesOneMore(lines[..n], lines[n], number);
      ReachesOneMore(lines[..n], lines[n], k);
      if lines[n].Framed? {
        PositionIsReached(k, lines[..n], lines[n].number);
      }
    } else {
      assert !Reaches([], number) && !Reaches([], k);
    }
  }

  /// Whatever the lines, in order or not: a frame is collected exactly when it
  /// is numbered past the bookmark and every frame before it; any other line,
  /// when nothing was collected before or a frame has reached the bookmark.
  lemma {:induction false} RoutedExactly(k: nat, lines: seq<Line>, i: nat)
    requires i < |lines|
    ensures RoutedBy(After(k), lines)[i] ==
            match lines[i]
            case Raw(text) =>
              if k == 0 || Reaches(lines[..i], k) then ToOutput(text) else AlreadyCollected
            case Framed(number, body) =>
              if number <= k || Reaches(lines[..i], number) then AlreadyCollected
              else
                match body
                case EventBody(event) => ToEvents(number, event)
                case OutputBody(text) => ToOutput(text)
  {
    hide Reaches;
    var n := |lines| - 1;
    if i < n {
      assert lines[..n][..i] == lines[..i];
      RoutedExactly(k, lines[..n], i);
    } else {
      PositionIsReached(k, lines[..n], if lines[n].Framed? then lines[n].number else k);
    }
  }

  lemma PrefixInOrder(lines: seq<Line>, n: nat)
    requires InOrder(lines) && n <= |lines|
    ensures InOrder(lines[..n])
  {
    forall i | 0 <= i < n && lines[i].Framed? ensures lines[i].number == FrameCount(lines[..n][..i]) + 1 {
      assert lines[..n][..i] == lines[..i];
    }
  }

  lemma {:induction false} LinesThroughBound(lines: seq<Line>, k: nat)
    ensures FrameCount(lines) < k ==> LinesThrough(lines, k) == |lines|
  {
    if lines != [] && k != 0 {
      LinesThroughBound(lines[..|lines| - 1], k);
    }
  }

  /// Replaying a stream from its start drops exactly the lines through the
  /// bookmarked frame, and collects every line after it.
  lemma {:induction false} ReplayDropsThroughBookmark(lines: seq<Line>, k: nat)
    requires InOrder(lines)
    ensures var n := FrameCount(lines);
            PositionAfter(After(k), lines) == if n < k then After(k) else StreamPosition(n, 0)
    ensures forall i :: 0 <= i < |lines| ==>
                          RoutedBy(After(k), lines)[i]
                          == if i < LinesThrough(lines, k) then AlreadyCollected else Emitted(lines[i])
  {
    if lines != [] {
      var n := |lines| - 1;
      PrefixInOrder(lines, n);
      ReplayDropsThroughBookmark(lines[..n], k);
      LinesThroughBound(lines[..n], k);
      var before := FrameCount(lines[..n]);
      if before < k && k != 0 {
        assert LinesThrough(lines, k) == n + 1;
      }
    }
  }

  // ----- resuming -----

  ghost predicate DropsThrough(routed: seq<Routed>, m: nat) {
    forall i :: 0 <= i < |routed| ==> (routed[i] == AlreadyCollected <==> i < m)
  }

  lemma DropsThroughPrefix(routed: seq<Routed>, m: nat, n: nat)
    requires DropsThrough(routed, m) && n <= |routed|
    ensures DropsThrough(routed[..n], m)
  {
  }

  lemma {:induction false} LandedAfterDrop(routed: seq<Routed>, m: nat)
    requires DropsThrough(routed, m)
    ensures Landed(routed) == if m <= |routed| then routed[m..] else []
  {
    if routed != [] {
      var n := |routed| - 1;
      DropsThroughPrefix(routed, m, n);
      LandedAfterDrop(routed[..n], m);
      assert routed[n] == AlreadyCollected <==> n < m;
      if m <= n {
        assert routed[m..] == routed[..n][m..] + [routed[n]];
      }
    }
  }

  /// What a collection from bookmark `k` lands: every line after frame `k`,
  /// once, in order.
  lemma ReplayLands(lines: seq<Line>, k: nat)
    requires InOrder(lines)
    ensures Landed(RoutedBy(After(k), lines)) == EmittedAll(lines[LinesThrough(lines, k)..])
  {
    hide RoutedBy, Landed, Emitted, PositionAfter, LinesThrough, FrameCount, InOrder;
    var m, routed := LinesThrough(lines, k), RoutedBy(After(k), lines);
    ReplayDropsThroughBookmark(lines, k);
    forall i | 0 <= i < |routed| ensures routed[i] == AlreadyCollected <==> i < m {
      EmittedIsCollected(lines[i]);
    }
    LandedAfterDrop(routed, m);
    assert EmittedAll(lines[m..]) == routed[m..];
  }

  lemma EmittedIsCollected(line: Line)
    ensures Emitted(line) != AlreadyCollected
  {
  }

  lemma {:induction false} LinesThroughPrefix(lines: seq<Line>, more: seq<Line>, k: nat)
    requires k <= FrameCount(lines)
    ensures LinesThrough(lines + more, k) == LinesThrough(lines, k)
    ensures FrameCount(lines + more) >= FrameCount(lines)
  {
    if more == [] {
      assert lines + more == lines;
    } else {
      var n := |more| - 1;
      assert (lines + more)[..|lines| + n] == lines + more[..n];
      LinesThroughPrefix(lines, more[..n], k);
    }
  }

  lemma {:induction false} NoFrameAfterLast(lines: seq<Line>)
    ensures forall i :: LinesThrough(lines, FrameCount(lines)) <= i < |lines| ==> lines[i].Raw?
  {
    if lines != [] && lines[|lines| - 1].Raw? {
      NoFrameAfterLast(lines[..|lines| - 1]);
    }
  }

  lemma EmittedInParts(lines: seq<Line>, more: seq<Line>)
    ensures EmittedAll(lines + more) == EmittedAll(lines) + EmittedAll(more)
  {
  }

  /// Routing `lines`, then all of `lines + more` from the last frame of
  /// `lines`, lands what routing `lines + more` once does — except that the
  /// lines of `lines` after its last frame, none of them a frame, land twice.
  lemma ResumeSplitting(lines: seq<Line>, more: seq<Line>)
    requires InOrder(lines + more)
    ensures var k := FrameCount(lines);
            var trailing := lines[LinesThrough(lines, k)..];
            && Landed(RoutedBy(FROM_THE_START, lines + more)) == EmittedAll(lines) + EmittedAll(more)
            && Landed(RoutedBy(FROM_THE_START, lines)) == EmittedAll(lines)
            && Landed(RoutedBy(After(k), lines + more)) == EmittedAll(trailing) + EmittedAll(more)
            && PositionAfter(FROM_THE_START, lines).lastSeq == k
            && forall line :: line in trailing ==> line.Raw?
  {
    hide RoutedBy, Landed, EmittedAll, InOrder, FrameCount;
    var k := FrameCount(lines);
    var all := lines + more;
    NoFrameAfterLast(lines);
    PrefixInOrder(all, |lines|);
    assert all[..|lines|] == lines;
    ReplayDropsThroughBookmark(lines, 0);
    ReplayLands(lines, 0);
    ReplayLands(all, 0);
    ReplayLands(all, k);
    LinesThroughPrefix(lines, more, k);
    var m := LinesThrough(lines, k);
    assert lines[0..] == lines && all[0..] == all;
    EmittedInParts(lines, more);
    assert all[m..] == lines[m..] + more;
    EmittedInParts(lines[m..], more);
  }

  /// To reach frame `k` takes the lines up to the one that carries it.
  lemma {:induction false} LinesThroughItsFrame(lines: seq<Line>, k: nat)
    requires InOrder(lines) && 0 < k <= FrameCount(lines)
    ensures var n := LinesThrough(lines, k);
            0 < n && lines[n - 1].Framed? && lines[n - 1].number == k
  {
    var n := |lines| - 1;
    if FrameCount(lines[..n]) >= k {
      PrefixInOrder(lines, n);
      LinesThroughItsFrame(lines[..n], k);
    } else {
      assert lines[n].Framed?;
    }
  }

  // ----- the round's side -----

  function EventsIn(bodies: seq<FrameBody>): seq<Event> {
    if bodies == [] then []
    else
      var n := |bodies| - 1;
      EventsIn(bodies[..n]) + if bodies[n].EventBody? then [bodies[n].event] else []
  }

  /// `events` are those the bodies at these positions carry, and no other body
  /// carries one.
  ghost predicate AreTheEvents(bodies: seq<FrameBody>, events: seq<Event>, at: seq<nat>) {
    && |at| == |events| && Ascends(at)
    && (forall k :: 0 <= k < |at| ==> at[k] < |bodies| && bodies[at[k]] == EventBody(events[k]))
    && (forall i :: 0 <= i < |bodies| && bodies[i].EventBody? ==> i in at)
  }

  lemma OneMoreBody(bodies: seq<FrameBody>, body: FrameBody, events: seq<Event>, at: seq<nat>)
    requires AreTheEvents(bodies, events, at)
    ensures body.OutputBody? ==> AreTheEvents(bodies + [body], events, at)
    ensures body.EventBody? ==> AreTheEvents(bodies + [body], events + [body.event], at + [|bodies|])
  {
    forall i | 0 <= i < |bodies| && bodies[i].EventBody? ensures i in at + [|bodies|] {
      assert i in at;
    }
  }

  lemma {:induction false} EventsByPosition(bodies: seq<FrameBody>) returns (at: seq<nat>)
    ensures AreTheEvents(bodies, EventsIn(bodies), at)
  {
    at := [];
    if bodies != [] {
      hide AreTheEvents;
      var n := |bodies| - 1;
      at := EventsByPosition(bodies[..n]);
      OneMoreBody(bodies[..n], bodies[n], EventsIn(bodies[..n]), at);
      assert bodies[..n] + [bodies[n]] == bodies && EventsIn(bodies[..n]) + [] == EventsIn(bodies[..n]);
      at := if bodies[n].EventBody? then at + [n] else at;
    } else {
      assert AreTheEvents([], [], []) by { NoBodies(); }
    }
  }

  lemma NoBodies()
    ensures AreTheEvents([], [], [])
  {
  }

  function Numbered(bodies: seq<FrameBody>): seq<Line> {
    seq(|bodies|, i requires 0 <= i < |bodies| => Framed(i + 1, bodies[i]))
  }

  /// Clones share one of these under a lock, so whatever their interleaving it
  /// sees one append after another.
  class FrameWriter {
    var sink: seq<Line>
    var lastSeq: nat
    var events: seq<Event>
    ghost var appended: seq<FrameBody>

    ghost predicate Valid()
      reads this
    {
      sink == Numbered(appended) && lastSeq == |appended| && events == EventsIn(appended)
    }

    constructor ()
      ensures Valid() && appended == []
    {
      sink, lastSeq, events, appended := [], 0, [], [];
    }

    method Append(body: FrameBody)
      requires Valid()
      modifies this
      ensures Valid() && appended == old(appended) + [body]
    {
      var frame := Framed(lastSeq + 1, body);
      sink := sink + [frame];
      lastSeq := frame.number;
      if frame.body.EventBody? {
        events := events + [frame.body.event];
      }
      appended := appended + [body];
      assert appended[..|appended| - 1] == old(appended);
    }

    method AppendEvent(kind: EventKind, now: Instant) returns (event: Event)
      requires Valid()
      modifies this
      ensures Valid() && event == Event(now, kind) && appended == old(appended) + [EventBody(event)]
    {
      event := Event(now, kind);
      Append(EventBody(event));
    }

    method AppendOutput(line: string)
      requires Valid()
      modifies this
      ensures Valid() && appended == old(appended) + [OutputBody(line)]
    {
      Append(OutputBody(line));
    }
  }

  lemma {:induction false} NumberedCounts(bodies: seq<FrameBody>)
    ensures FrameCount(Numbered(bodies)) == |bodies|
  {
    if bodies != [] {
      var n := |bodies| - 1;
      assert Numbered(bodies)[..n] == Numbered(bodies[..n]);
      NumberedCounts(bodies[..n]);
    }
  }

  lemma NumberedInOrder(bodies: seq<FrameBody>)
    ensures InOrder(Numbered(bodies))
  {
    forall i | 0 <= i < |bodies| ensures Numbered(bodies)[i].number == FrameCount(Numbered(bodies)[..i]) + 1 {
      assert Numbered(bodies)[..i] == Numbered(bodies[..i]);
      NumberedCounts(bodies[..i]);
    }
  }

  /// A reader gives back what was written: every body in order, an event as
  /// an event and output as output, whatever its text says.
  lemma ReaderAgreesWithWriter(bodies: seq<FrameBody>)
    ensures var routed := RoutedBy(FROM_THE_START, Numbered(bodies));
            && |routed| == |bodies|
            && forall i :: 0 <= i < |bodies| ==>
                             routed[i] == match bodies[i]
                                          case EventBody(event) => ToEvents(i + 1, event)
                                          case OutputBody(text) => ToOutput(text)
    ensures PositionAfter(FROM_THE_START, Numbered(bodies)).lastSeq == |bodies|
  {
    NumberedInOrder(bodies);
    NumberedCounts(bodies);
    ReplayDropsThroughBookmark(Numbered(bodies), 0);
  }

  // ----- a person's view of the stream -----

  type Bytes = seq<char>

  function NewlineIn(bytes: Bytes): (end: nat)
    ensures end <= |bytes|
    ensures forall i :: 0 <= i < end ==> bytes[i] != '\n'
    ensures end < |bytes| ==> bytes[end] == '\n'
  {
    if bytes == [] || bytes[0] == '\n' then 0 else 1 + NewlineIn(bytes[1..])
  }

  /// The text of the complete lines of `bytes`, read with `parse`.
  function Readable(parse: Bytes -> Option<FrameBody>, bytes: Bytes): Bytes
    decreases |bytes|
  {
    var end := NewlineIn(bytes);
    if end == |bytes| then [] else ReadableLine(parse, bytes[..end]) + Readable(parse, bytes[end + 1..])
  }

  /// The text of an output frame, and of a line that is no frame; of an event
  /// nothing.
  function ReadableLine(parse: Bytes -> Option<FrameBody>, line: Bytes): Bytes {
    match parse(line)
    case Some(OutputBody(text)) => text + ['\n']
    case Some(EventBody(_)) => []
    case None => line + ['\n']
  }

  /// What follows the last newline.
  function Unfinished(bytes: Bytes): Bytes
    decreases |bytes|
  {
    var end := NewlineIn(bytes);
    if end == |bytes| then bytes else Unfinished(bytes[end + 1..])
  }

  /// Bytes read in two parts read the same as in one.
  lemma {:induction false} ReadableInParts(parse: Bytes -> Option<FrameBody>, first: Bytes, second: Bytes)
    ensures Readable(parse, first + second) == Readable(parse, first) + Readable(parse, Unfinished(first) + second)
    ensures Unfinished(first + second) == Unfinished(Unfinished(first) + second)
    decreases |first|
  {
    hide Readable, ReadableLine, Unfinished, NewlineIn;
    var end, both := NewlineIn(first), first + second;
    if end < |first| {
      NewlineInPrefix(first, second);
      FirstLine(parse, first);
      FirstLine(parse, both);
      assert both[..end] == first[..end] && both[end + 1..] == first[end + 1..] + second;
      ReadableInParts(parse, first[end + 1..], second);
    } else {
      NoLineShown(parse, first);
      assert [] + Readable(parse, both) == Readable(parse, both);
    }
  }

  lemma NewlineInPrefix(first: Bytes, second: Bytes)
    requires NewlineIn(first) < |first|
    ensures NewlineIn(first + second) == NewlineIn(first)
  {
    var a, b := NewlineIn(first), NewlineIn(first + second);
    assert (first + second)[a] == '\n';
    assert b <= a;
    if b < a {
      assert first[b] == (first + second)[b];
    }
  }

  class ReadableFrames {
    const parse: Bytes -> Option<FrameBody>
    var text: Bytes
    var partial: Bytes
    ghost var written: Bytes

    /// The text depends on the bytes written so far, not on how the writes
    /// split them.
    ghost predicate Valid()
      reads this
    {
      text == Readable(parse, written) && partial == Unfinished(written) && NewlineIn(partial) == |partial|
    }

    constructor (parse: Bytes -> Option<FrameBody>)
      ensures Valid() && written == [] && this.parse == parse
    {
      this.parse := parse;
      text, partial, written := [], [], [];
    }

    method Write(buf: Bytes)
      requires Valid()
      modifies this
      ensures Valid() && written == old(written) + buf
    {
      hide Readable, ReadableLine, Unfinished, NewlineIn;
      ghost var start := partial + buf;
      ghost var shown: Bytes := [];
      ReadableInParts(parse, written, buf);
      written := written + buf;
      partial := partial + buf;
      var end := NewlineIn(partial);
      while end < |partial|
        invariant end == NewlineIn(partial)
        invariant text == old(text) + shown && shown + Readable(parse, partial) == Readable(parse, start)
        invariant Unfinished(partial) == Unfinished(start)
        invariant written == old(written) + buf
        decreases |partial|
      {
        var line := ReadableLine(parse, partial[..end]);
        NextLineShown(parse, partial, shown);
        text, shown := text + line, shown + line;
        partial := partial[end + 1..];
        end := NewlineIn(partial);
      }
      NoLineShown(parse, partial);
    }
  }

  lemma FirstLine(parse: Bytes -> Option<FrameBody>, bytes: Bytes)
    requires NewlineIn(bytes) < |bytes|
    ensures var end := NewlineIn(bytes);
            && Readable(parse, bytes) == ReadableLine(parse, bytes[..end]) + Readable(parse, bytes[end + 1..])
            && Unfinished(bytes) == Unfinished(bytes[end + 1..])
  {
    hide NewlineIn, ReadableLine;
  }

  lemma NextLineShown(parse: Bytes -> Option<FrameBody>, bytes: Bytes, shown: Bytes)
    requires NewlineIn(bytes) < |bytes|
    ensures var end := NewlineIn(bytes);
            && shown + Readable(parse, bytes)
               == (shown + ReadableLine(parse, bytes[..end])) + Readable(parse, bytes[end + 1..])
            && Unfinished(bytes) == Unfinished(bytes[end + 1..])
  {
    hide Readable, ReadableLine, Unfinished;
    var end := NewlineIn(bytes);
    FirstLine(parse, bytes);
    Associates(shown, ReadableLine(parse, bytes[..end]), Readable(parse, bytes[end + 1..]));
  }

  /// A complete line is shown by what it parses as, and what follows it as if
  /// it came alone; of an unfinished line nothing is shown.
  lemma ShownLineByLine(parse: Bytes -> Option<FrameBody>, line: Bytes, rest: Bytes)
    requires '\n' !in line
    ensures Readable(parse, line + ['\n'] + rest)
            == (match parse(line)
                case Some(OutputBody(text)) => text + ['\n']
                case Some(EventBody(_)) => []
                case None => line + ['\n']) + Readable(parse, rest)
    ensures Unfinished(line + ['\n'] + rest) == Unfinished(rest)
    ensures Readable(parse, line) == [] && Unfinished(line) == line
  {
    hide Readable, Unfinished, ReadableLine;
    var all := line + ['\n'] + rest;
    NewlineAfter(line, rest);
    FirstLine(parse, all);
    assert all[..|line|] == line && all[|line| + 1..] == rest;
    WhatALineShows(parse, line);
    NoLineShown(parse, line);
  }

  lemma WhatALineShows(parse: Bytes -> Option<FrameBody>, line: Bytes)
    ensures ReadableLine(parse, line)
            == match parse(line)
               case Some(OutputBody(text)) => text + ['\n']
               case Some(EventBody(_)) => []
               case None => line + ['\n']
  {
  }

  lemma NewlineAfter(line: Bytes, rest: Bytes)
    requires '\n' !in line
    ensures NewlineIn(line + ['\n'] + rest) == |line| && NewlineIn(line) == |line|
  {
    hide NewlineIn;
    var all := line + ['\n'] + rest;
    assert all[|line|] == '\n';
    assert forall i :: 0 <= i < |line| ==> all[i] == line[i] && line[i] in line;
  }

  lemma NoLineShown(parse: Bytes -> Option<FrameBody>, bytes: Bytes)
    requires NewlineIn(bytes) == |bytes|
    ensures Readable(parse, bytes) == [] && Unfinished(bytes) == bytes
  {
  }

  lemma Associates(a: Bytes, b: Bytes, c: Bytes)
    ensures (a + b) + c == a + (b + c)
  {
  }

  // ----- a missing verdict -----

  const NO_VERDICT_REPORTED := "the round ended without reporting a verdict: "

  /// What a collector adds to events that hold no verdict; nothing, if one
  /// does.
  function VerdictMissingFrom(collected: seq<Event>, endedBecause: string): Option<EventKind> {
    if exists i :: 0 <= i < |collected| && collected[i].kind.IsVerdict() then None
    else Some(RoundFailed(NO_VERDICT_REPORTED + endedBecause))
  }
}
