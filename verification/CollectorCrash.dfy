// A collector that may die between any two writes, over and over, and is then
// given its stream from the first line again (src/collect.rs, src/frame.rs).
module CollectorCrash {
  import opened Events
  import opened Report
  import opened Frames

  /// The two logs and the position file survive a crash; the rest does not.
  /// `landed` is the history of lines written to either log.
  datatype Collector = Collector(
    events: Log,
    output: seq<string>,
    bookmark: nat,
    live: bool,
    position: StreamPosition,
    read: nat,
    owesBookmark: bool,
    began: nat,
    landed: seq<nat>)

  datatype Step = Begin | RouteNext | Record | Crash

  function Fresh(prior: Log): Collector {
    Collector(prior, [], 0, false, FROM_THE_START, 0, false, 0, [])
  }

  predicate Enabled(c: Collector, stream: seq<Line>, step: Step) {
    match step
    case Begin => !c.live
    case RouteNext => c.live && !c.owesBookmark && c.read < |stream|
    case Record => c.live && c.owesBookmark
    case Crash => c.live
  }

  function Stepped(c: Collector, stream: seq<Line>, step: Step): Collector
    requires Enabled(c, stream, step)
  {
    match step
    case Begin => c.(live := true, position := After(c.bookmark), read := 0, owesBookmark := false, began := c.bookmark)
    case RouteNext =>
      var (next, routed) := c.position.Route(stream[c.read]);
      c.(events := c.events + (if routed.ToEvents? then [routed.event] else []),
      output := c.output + (if routed.ToOutput? then [routed.text] else []),
      landed := c.landed + (if routed == AlreadyCollected then [] else [c.read]),
      owesBookmark := next.lastSeq != c.position.lastSeq,
      position := next,
      read := c.read + 1)
    case Record => c.(bookmark := c.position.lastSeq, owesBookmark := false)
    case Crash => c.(live := false)
  }

  ghost predicate Runs(c: Collector, stream: seq<Line>, trace: seq<Step>)
    decreases |trace|
  {
    trace == [] || (Enabled(c, stream, trace[0]) && Runs(Stepped(c, stream, trace[0]), stream, trace[1..]))
  }

  ghost function End(c: Collector, stream: seq<Line>, trace: seq<Step>): Collector
    requires Runs(c, stream, trace)
    decreases |trace|
  {
    if trace == [] then c else End(Stepped(c, stream, trace[0]), stream, trace[1..])
  }

  /// It may crash at any moment, and what it wrote is all the next one has: it
  /// begins at the stream's first line, from the bookmark.
  lemma ACrashLeavesTheFiles(c: Collector, stream: seq<Line>)
    requires c.live
    ensures Enabled(c, stream, Crash) && Enabled(Stepped(c, stream, Crash), stream, Begin)
    ensures var next := Stepped(Stepped(c, stream, Crash), stream, Begin);
            && next.events == c.events && next.output == c.output && next.bookmark == c.bookmark
            && next.read == 0 && next.position == StreamPosition(c.bookmark, c.bookmark) && !next.owesBookmark
  {
  }

  // ----- what may land -----

  predicate RawBetween(stream: seq<Line>, from: int, to: int) {
    forall i :: 0 <= i < |stream| && from <= i < to ==> stream[i].Raw?
  }

  /// Lines land from the first on, one after another — but a crash goes back
  /// to a line already landed, repeating lines of which only the last landed
  /// may be a frame.
  ghost predicate Retells(stream: seq<Line>, landed: seq<nat>) {
    && (forall i :: 0 <= i < |landed| ==> landed[i] < |stream|)
    && (landed != [] ==> landed[0] == 0)
    && forall i :: 0 < i < |landed| ==> Continues(stream, landed[i - 1], landed[i])
  }

  predicate Continues(stream: seq<Line>, last: int, next: int) {
    next == last + 1 || (next <= last && RawBetween(stream, next, last))
  }

  function LastOf(landed: seq<nat>): int {
    if landed == [] then -1 else landed[|landed| - 1]
  }

  function EventsAt(stream: seq<Line>, landed: seq<nat>): seq<Event>
    requires forall i :: 0 <= i < |landed| ==> landed[i] < |stream|
  {
    if landed == [] then []
    else
      var n := |landed| - 1;
      var line := stream[landed[n]];
      EventsAt(stream, landed[..n]) + if line.Framed? && line.body.EventBody? then [line.body.event] else []
  }

  function OutputAt(stream: seq<Line>, landed: seq<nat>): seq<string>
    requires forall i :: 0 <= i < |landed| ==> landed[i] < |stream|
  {
    if landed == [] then []
    else
      var n := |landed| - 1;
      OutputAt(stream, landed[..n]) +
      match Emitted(stream[landed[n]])
      case ToOutput(text) => [text]
      case _ => []
  }

  // ----- the invariant -----

  /// The next line to land continues from the last one that did.
  ghost predicate Resumable(stream: seq<Line>, landed: seq<nat>, bookmark: nat) {
    var from := LinesThrough(stream, bookmark);
    && bookmark <= FrameCount(stream)
    && from <= LastOf(landed) + 1
    && RawBetween(stream, from, LastOf(landed))
  }

  ghost predicate LifeOk(c: Collector, stream: seq<Line>)
    requires c.read <= |stream|
  {
    var seen := FrameCount(stream[..c.read]);
    var dropped := LinesThrough(stream, c.began);
    && c.position == (if seen < c.began then After(c.began) else StreamPosition(seen, 0))
    && c.began <= FrameCount(stream)
    && (if c.read <= dropped then c.bookmark == c.began && !c.owesBookmark
        else
          && LastOf(c.landed) == c.read - 1
          && 0 < c.read && (c.owesBookmark ==> stream[c.read - 1].Framed?)
          && seen == c.bookmark + if c.owesBookmark then 1 else 0)
  }

  ghost predicate Inv(c: Collector, stream: seq<Line>, prior: Log) {
    && c.read <= |stream|
    && Retells(stream, c.landed)
    && c.events == prior + EventsAt(stream, c.landed)
    && c.output == OutputAt(stream, c.landed)
    && Resumable(stream, c.landed, c.bookmark)
    && (c.live ==> LifeOk(c, stream))
  }

  lemma {:induction false} LinesThroughFrame(stream: seq<Line>, read: nat, k: nat)
    requires read <= |stream|
    ensures k <= FrameCount(stream[..read]) ==> LinesThrough(stream, k) <= read
    ensures k > FrameCount(stream[..read]) ==> LinesThrough(stream, k) >= read
    ensures FrameCount(stream[..read]) <= FrameCount(stream)
  {
    assert stream[..read] + stream[read..] == stream;
    if k <= FrameCount(stream[..read]) {
      LinesThroughPrefix(stream[..read], stream[read..], k);
    } else {
      LinesThroughPast(stream, read, k);
    }
    LinesThroughPrefix(stream[..read], stream[read..], 0);
  }

  lemma {:induction false} LinesThroughPast(stream: seq<Line>, read: nat, k: nat)
    requires read <= |stream| && k > FrameCount(stream[..read])
    ensures LinesThrough(stream, k) >= read
  {
    if stream != [] && read < |stream| {
      var n := |stream| - 1;
      assert stream[..n][..read] == stream[..read];
      LinesThroughPast(stream[..n], read, k);
    } else {
      assert stream[..read] == stream;
    }
  }

  /// After the frame numbered by a prefix, the prefix holds no other.
  lemma RawSinceLastFrame(stream: seq<Line>, read: nat)
    requires read <= |stream|
    ensures LinesThrough(stream, FrameCount(stream[..read])) <= read
    ensures RawBetween(stream, LinesThrough(stream, FrameCount(stream[..read])), read)
  {
    var k := FrameCount(stream[..read]);
    LinesThroughFrame(stream, read, k);
    assert stream[..read] + stream[read..] == stream;
    LinesThroughPrefix(stream[..read], stream[read..], k);
    NoFrameAfterLast(stream[..read]);
    forall i | LinesThrough(stream, k) <= i < read ensures stream[i].Raw? {
      assert stream[..read][i] == stream[i];
    }
  }

  lemma RetellsOneMore(stream: seq<Line>, landed: seq<nat>, next: nat)
    requires Retells(stream, landed) && next < |stream|
    requires Continues(stream, LastOf(landed), next)
    ensures Retells(stream, landed + [next])
    ensures EventsAt(stream, landed + [next])
            == EventsAt(stream, landed)
               + if stream[next].Framed? && stream[next].body.EventBody? then [stream[next].body.event] else []
    ensures OutputAt(stream, landed + [next])
            == OutputAt(stream, landed) + match Emitted(stream[next]) case ToOutput(text) => [text] case _ => []
  {
    assert (landed + [next])[..|landed|] == landed;
  }

  lemma {:induction false} FramesThrough(stream: seq<Line>, k: nat)
    requires k <= FrameCount(stream)
    ensures FrameCount(stream[..LinesThrough(stream, k)]) == k
  {
    if stream != [] && k != 0 {
      var n := |stream| - 1;
      if FrameCount(stream[..n]) < k {
        assert stream[..|stream|] == stream;
      } else {
        FramesThrough(stream[..n], k);
        assert stream[..n][..LinesThrough(stream[..n], k)] == stream[..LinesThrough(stream, k)];
      }
    } else {
      assert stream[..0] == [];
    }
  }

  lemma OneLineOn(stream: seq<Line>, read: nat)
    requires read < |stream|
    ensures FrameCount(stream[..read + 1]) == FrameCount(stream[..read]) + if stream[read].Framed? then 1 else 0
    ensures FrameCount(stream[..read + 1]) <= FrameCount(stream)
  {
    assert stream[..read + 1][..read] == stream[..read];
    LinesThroughFrame(stream, read + 1, 0);
  }

  /// Short of the bookmarked frame, one more line is still short of its end.
  lemma StillDropping(stream: seq<Line>, read: nat, k: nat)
    requires read < |stream| && FrameCount(stream[..read]) < k
    ensures read + 1 <= LinesThrough(stream, k)
  {
    OneLineOn(stream, read);
    if FrameCount(stream[..read + 1]) < k {
      LinesThroughPast(stream, read + 1, k);
    } else {
      assert stream[..read + 1] + stream[read + 1..] == stream;
      assert stream[..read + 1][..read] == stream[..read];
      LinesThroughPrefix(stream[..read + 1], stream[read + 1..], k);
    }
  }

  lemma DropKeeps(c: Collector, stream: seq<Line>, prior: Log)
    requires InOrder(stream) && Inv(c, stream, prior) && Enabled(c, stream, RouteNext)
    requires FrameCount(stream[..c.read]) < c.began
    ensures Inv(Stepped(c, stream, RouteNext), stream, prior)
  {
    hide Retells, EventsAt, OutputAt, Resumable, LinesThrough;
    assert c.events + [] == c.events && c.output + [] == c.output && c.landed + [] == c.landed;
    OneLineOn(stream, c.read);
    StillDropping(stream, c.read, c.began);
  }

  lemma LandKeeps(c: Collector, stream: seq<Line>, prior: Log)
    requires InOrder(stream) && Inv(c, stream, prior) && Enabled(c, stream, RouteNext)
    requires FrameCount(stream[..c.read]) >= c.began
    ensures Inv(Stepped(c, stream, RouteNext), stream, prior)
  {
    hide Retells, EventsAt, OutputAt, LinesThrough;
    var seen := FrameCount(stream[..c.read]);
    LinesThroughFrame(stream, c.read, c.began);
    OneLineOn(stream, c.read);
    if c.read == LinesThrough(stream, c.began) {
      FramesThrough(stream, c.began);
    } else {
      RawSinceLastFrame(stream, c.read);
    }
    RetellsOneMore(stream, c.landed, c.read);
  }

  lemma RecordKeeps(c: Collector, stream: seq<Line>, prior: Log)
    requires InOrder(stream) && Inv(c, stream, prior) && Enabled(c, stream, Step.Record)
    ensures Inv(Stepped(c, stream, Step.Record), stream, prior)
  {
    hide Retells, EventsAt, OutputAt, LinesThrough;
    LinesThroughFrame(stream, c.read, c.began);
    RawSinceLastFrame(stream, c.read);
    LinesThroughFrame(stream, c.read, 0);
  }

  lemma StepKeeps(c: Collector, stream: seq<Line>, prior: Log, step: Step)
    requires InOrder(stream) && Inv(c, stream, prior) && Enabled(c, stream, step)
    ensures Inv(Stepped(c, stream, step), stream, prior)
  {
    match step
    case Begin =>
    case Crash =>
    case Record => RecordKeeps(c, stream, prior);
    case RouteNext =>
      if FrameCount(stream[..c.read]) < c.began {
        DropKeeps(c, stream, prior);
      } else {
        LandKeeps(c, stream, prior);
      }
  }

  lemma {:induction false} RunKeeps(c: Collector, stream: seq<Line>, prior: Log, trace: seq<Step>)
    requires InOrder(stream) && Inv(c, stream, prior) && Runs(c, stream, trace)
    ensures Inv(End(c, stream, trace), stream, prior)
    decreases |trace|
  {
    hide Inv, Stepped;
    if trace != [] {
      StepKeeps(c, stream, prior, trace[0]);
      RunKeeps(Stepped(c, stream, trace[0]), stream, prior, trace[1..]);
    }
  }

  // ----- what a retelling tells -----

  function Upto(n: nat): seq<nat> {
    seq(n, i => i)
  }

  /// One past the furthest line landed.
  function Reached(landed: seq<nat>): nat {
    if landed == [] then 0
    else
      var n := |landed| - 1;
      var before := Reached(landed[..n]);
      if landed[n] + 1 > before then landed[n] + 1 else before
  }

  lemma RetellsPrefix(stream: seq<Line>, landed: seq<nat>)
    requires landed != [] && Retells(stream, landed)
    ensures Retells(stream, landed[..|landed| - 1])
    ensures Continues(stream, LastOf(landed[..|landed| - 1]), landed[|landed| - 1])
  {
    var n := |landed| - 1;
    assert n > 0 ==> Continues(stream, landed[n - 1], landed[n]);
  }

  /// Nothing short of the furthest line landed is missing, and from the last
  /// line landed on, only the furthest may be a frame.
  lemma {:induction false} RetellingIsGapless(stream: seq<Line>, landed: seq<nat>)
    requires Retells(stream, landed)
    ensures Reached(landed) <= |stream| && LastOf(landed) < Reached(landed)
    ensures forall i :: 0 <= i < Reached(landed) ==> i in landed
    ensures forall i :: 0 <= i < |landed| ==> landed[i] < Reached(landed)
    ensures RawBetween(stream, LastOf(landed), Reached(landed) - 1)
  {
    if landed != [] {
      var n := |landed| - 1;
      RetellsPrefix(stream, landed);
      RetellingIsGapless(stream, landed[..n]);
      assert landed == landed[..n] + [landed[n]];
    }
  }

  /// Frames land in order: none lands after a later one has.
  lemma {:induction false} FramesLandInOrder(stream: seq<Line>, landed: seq<nat>)
    requires Retells(stream, landed)
    ensures forall i, k ::
              (0 <= i < k < |landed| && stream[landed[i]].Framed? && stream[landed[k]].Framed?)
              ==> landed[i] <= landed[k]
  {
    if landed != [] {
      var n := |landed| - 1;
      RetellsPrefix(stream, landed);
      FramesLandInOrder(stream, landed[..n]);
      RetellingIsGapless(stream, landed[..n]);
    }
  }

  /// What a line adds to a report: nothing, unless it is an event's frame.
  function Telling(p: JobProgress, line: Line): JobProgress {
    if line.Framed? && line.body.EventBody? then p.AfterEvent(line.body.event) else p
  }

  function Told(prior: Log, stream: seq<Line>, landed: seq<nat>): JobProgress
    requires forall i :: 0 <= i < |landed| ==> landed[i] < |stream|
  {
    FromEvents(prior + EventsAt(stream, landed))
  }

  /// Every kind of event leaves a report as it is the second time.
  lemma ToldTwice(p: JobProgress, line: Line)
    ensures Telling(Telling(p, line), line) == Telling(p, line)
  {
  }

  lemma ToldOneMore(prior: Log, stream: seq<Line>, landed: seq<nat>, next: nat)
    requires forall i :: 0 <= i < |landed| ==> landed[i] < |stream|
    requires next < |stream|
    ensures Told(prior, stream, landed + [next]) == Telling(Told(prior, stream, landed), stream[next])
  {
    var line := stream[next];
    var events := EventsAt(stream, landed);
    assert (landed + [next])[..|landed|] == landed;
    if line.Framed? && line.body.EventBody? {
      assert prior + EventsAt(stream, landed + [next]) == (prior + events) + [line.body.event];
      AppendedReport(prior + events, line.body.event);
    } else {
      assert EventsAt(stream, landed + [next]) == events;
    }
  }

  /// The report of a log with a retelling's repeats is that of a log without.
  lemma {:induction false} ReportAbsorbsRepeats(prior: Log, stream: seq<Line>, landed: seq<nat>)
    requires Retells(stream, landed)
    ensures Reached(landed) <= |stream|
    ensures Told(prior, stream, landed) == Told(prior, stream, Upto(Reached(landed)))
  {
    hide Told, Telling, Retells, Upto;
    RetellingIsGapless(stream, landed);
    if landed != [] {
      var n := |landed| - 1;
      var (before, next) := (landed[..n], landed[n]);
      assert before + [next] == landed;
      RetellsPrefix(stream, landed);
      RetellingIsGapless(stream, before);
      ReportAbsorbsRepeats(prior, stream, before);
      ToldOneMore(prior, stream, before, next);
      RepeatIsAbsorbed(prior, stream, before, next);
    } else {
      assert Upto(0) == [] by { UptoNone(); }
    }
  }

  lemma UptoNone()
    ensures Upto(0) == []
  {
  }

  lemma UptoOneMore(n: nat)
    ensures Upto(n + 1) == Upto(n) + [n]
    ensures forall i :: 0 <= i < n ==> Upto(n)[i] < n
    ensures |Upto(n)| == n
  {
  }

  lemma RepeatIsAbsorbed(prior: Log, stream: seq<Line>, before: seq<nat>, next: nat)
    requires next < |stream| && Reached(before) <= |stream| && LastOf(before) < Reached(before)
    requires Continues(stream, LastOf(before), next)
    requires RawBetween(stream, LastOf(before), Reached(before) - 1)
    ensures Upto(Reached(before + [next]))
            == if next < Reached(before) then Upto(Reached(before)) else Upto(next) + [next]
    ensures var told := Told(prior, stream, Upto(Reached(before)));
            Telling(told, stream[next]) == Told(prior, stream, Upto(Reached(before + [next])))
  {
    hide Told;
    var far := Reached(before);
    assert (before + [next])[..|before|] == before;
    UptoOneMore(next);
    ToldOneMore(prior, stream, Upto(next), next);
    if next < far {
      if stream[next].Framed? {
        assert next == far - 1;
        ToldTwice(Told(prior, stream, Upto(next)), stream[next]);
      }
    }
  }

  // ----- every run -----

  /// However often it crashes and resumes: the lines landed are the stream's
  /// from its first on, gapless, going back at a crash over lines of
  /// which at most the last landed is a frame; frames land in order; the logs
  /// hold just those lines; and the report is that of a collection that went
  /// as far without a crash.
  lemma CrashesLoseNothing(stream: seq<Line>, prior: Log, trace: seq<Step>)
    requires InOrder(stream) && Runs(Fresh(prior), stream, trace)
    ensures var c := End(Fresh(prior), stream, trace);
            && Retells(stream, c.landed)
            && (forall i :: 0 <= i < Reached(c.landed) ==> i in c.landed)
            && (forall i, k ::
                  (0 <= i < k < |c.landed| && stream[c.landed[i]].Framed? && stream[c.landed[k]].Framed?)
                  ==> c.landed[i] <= c.landed[k])
            && c.events == prior + EventsAt(stream, c.landed)
            && c.output == OutputAt(stream, c.landed)
            && Reached(c.landed) <= |stream|
            && FromEvents(c.events) == FromEvents(prior + EventsAt(stream, Upto(Reached(c.landed))))
  {
    hide EventsAt, OutputAt;
    assert Inv(Fresh(prior), stream, prior) by { FreshOk(stream, prior); }
    RunKeeps(Fresh(prior), stream, prior, trace);
    var c := End(Fresh(prior), stream, trace);
    RetellingIsGapless(stream, c.landed);
    FramesLandInOrder(stream, c.landed);
    ReportAbsorbsRepeats(prior, stream, c.landed);
  }

  lemma FreshOk(stream: seq<Line>, prior: Log)
    ensures Inv(Fresh(prior), stream, prior)
  {
  }

  /// A collector lands only lines since the bookmark it would resume from.
  lemma NothingBeforeTheBookmarkRepeats(stream: seq<Line>, prior: Log, trace: seq<Step>)
    requires InOrder(stream) && Runs(Fresh(prior), stream, trace)
    requires Enabled(End(Fresh(prior), stream, trace), stream, RouteNext)
    ensures var c := End(Fresh(prior), stream, trace);
            var c' := Stepped(c, stream, RouteNext);
            c'.landed == c.landed
            || (c'.landed == c.landed + [c.read] && LinesThrough(stream, c.bookmark) <= c.read)
  {
    hide EventsAt, OutputAt, Retells, Resumable, LinesThrough;
    assert Inv(Fresh(prior), stream, prior) by { FreshOk(stream, prior); }
    RunKeeps(Fresh(prior), stream, prior, trace);
    var c := End(Fresh(prior), stream, trace);
    LinesThroughFrame(stream, c.read, c.bookmark);
  }

  /// One that has read its stream to the end has landed every line of it.
  lemma ReadToTheEndLandsEverything(stream: seq<Line>, prior: Log, trace: seq<Step>)
    requires InOrder(stream) && Runs(Fresh(prior), stream, trace)
    ensures var c := End(Fresh(prior), stream, trace);
            c.live && c.read == |stream| ==>
              && (forall i :: 0 <= i < |stream| ==> i in c.landed)
              && FromEvents(c.events) == FromEvents(prior + EventsAt(stream, Upto(|stream|)))
  {
    hide EventsAt, OutputAt;
    assert Inv(Fresh(prior), stream, prior) by { FreshOk(stream, prior); }
    RunKeeps(Fresh(prior), stream, prior, trace);
    var c := End(Fresh(prior), stream, trace);
    RetellingIsGapless(stream, c.landed);
    ReportAbsorbsRepeats(prior, stream, c.landed);
  }

  // ----- a line no resumption follows -----

  /// Every collection begins with line `v` not yet landed.
  ghost predicate BeginsBefore(c: Collector, stream: seq<Line>, trace: seq<Step>, v: nat)
    requires Runs(c, stream, trace)
    decreases |trace|
  {
    trace == []
    || ((trace[0].Begin? ==> v !in c.landed) && BeginsBefore(Stepped(c, stream, trace[0]), stream, trace[1..], v))
  }

  ghost predicate LandedOnce(landed: seq<nat>, v: nat) {
    forall i, k :: 0 <= i < |landed| && 0 <= k < |landed| && landed[i] == v && landed[k] == v ==> i == k
  }

  lemma {:induction false} LandsOnce(c: Collector, stream: seq<Line>, trace: seq<Step>, v: nat)
    requires Runs(c, stream, trace) && BeginsBefore(c, stream, trace, v)
    requires LandedOnce(c.landed, v) && (c.live && v in c.landed ==> v < c.read)
    ensures LandedOnce(End(c, stream, trace).landed, v)
    decreases |trace|
  {
    if trace != [] {
      LandsOnce(Stepped(c, stream, trace[0]), stream, trace[1..], v);
    }
  }
}
