// A collection as `Collect.JobFiles` does it is a run of the collector that may
// crash (src/collect.rs).
module CollectorRuns {
  import opened Events
  import opened Frames
  import opened Collect
  import CC = CollectorCrash

  /// What a crash would leave is the same of both.
  ghost predicate Mirrors(files: JobFiles, c: CC.Collector)
    reads files
  {
    && files.events == c.events && files.output == c.output
    && c.bookmark == match files.bookmark case None => 0 case Some(k) => k
  }

  /// The collector has read `read` lines since it began as `start`.
  ghost predicate HasRead(c: CC.Collector, start: CC.Collector, stream: seq<Line>, read: nat)
    requires read <= |stream|
  {
    var routed := RoutedBy(After(start.bookmark), stream[..read]);
    && c.live && !c.owesBookmark && c.read == read
    && c.position == PositionAfter(After(start.bookmark), stream[..read])
    && c.bookmark == c.position.lastSeq
    && c.events == start.events + EventsLanded(routed)
    && c.output == start.output + OutputLanded(routed)
  }

  lemma OneStepOn(c: CC.Collector, stream: seq<Line>, step: CC.Step)
    requires CC.Enabled(c, stream, step)
    ensures CC.Runs(c, stream, [step]) && CC.End(c, stream, [step]) == CC.Stepped(c, stream, step)
  {
    assert [step][1..] == [];
  }

  lemma {:induction false} RunsOn(c: CC.Collector, stream: seq<Line>, first: seq<CC.Step>, second: seq<CC.Step>)
    requires CC.Runs(c, stream, first) && CC.Runs(CC.End(c, stream, first), stream, second)
    ensures CC.Runs(c, stream, first + second)
    ensures CC.End(c, stream, first + second) == CC.End(CC.End(c, stream, first), stream, second)
    decreases |first|
  {
    hide CC.Stepped, CC.Enabled;
    if first == [] {
      assert first + second == second;
    } else {
      RunsOn(CC.Stepped(c, stream, first[0]), stream, first[1..], second);
      assert (first + second)[1..] == first[1..] + second;
    }
  }

  lemma ReadsALine(c: CC.Collector, start: CC.Collector, stream: seq<Line>, read: nat) returns (steps: seq<CC.Step>)
    requires read < |stream| && HasRead(c, start, stream, read)
    ensures CC.Runs(c, stream, steps) && HasRead(CC.End(c, stream, steps), start, stream, read + 1)
    ensures CC.Crash !in steps
  {
    hide RoutedBy, EventsLanded, OutputLanded, PositionAfter, StreamPosition.Route;
    RoutedStep(After(start.bookmark), stream, read);
    var routed := CC.Stepped(c, stream, CC.RouteNext);
    OneStepOn(c, stream, CC.RouteNext);
    steps := [CC.RouteNext];
    if routed.owesBookmark {
      OneStepOn(routed, stream, CC.Record);
      RunsOn(c, stream, [CC.RouteNext], [CC.Record]);
      steps := [CC.RouteNext] + [CC.Record];
    }
  }

  lemma {:induction false} ReadsOn(c: CC.Collector, start: CC.Collector, stream: seq<Line>, read: nat)
    returns (steps: seq<CC.Step>)
    requires read <= |stream| && HasRead(c, start, stream, read)
    ensures CC.Runs(c, stream, steps) && HasRead(CC.End(c, stream, steps), start, stream, |stream|)
    ensures CC.Crash !in steps
    decreases |stream| - read
  {
    hide HasRead, CC.Runs, CC.End;
    if read == |stream| {
      steps := [];
      assert CC.Runs(c, stream, []) && CC.End(c, stream, []) == c by { NoSteps(c, stream); }
    } else {
      steps := ReadsALine(c, start, stream, read);
      var more := ReadsOn(CC.End(c, stream, steps), start, stream, read + 1);
      RunsOn(c, stream, steps, more);
      steps := steps + more;
    }
  }

  lemma NoSteps(c: CC.Collector, stream: seq<Line>)
    ensures CC.Runs(c, stream, []) && CC.End(c, stream, []) == c
  {
  }

  /// A collector that begins and is not interrupted reads its stream to the end.
  lemma Uninterrupted(c: CC.Collector, stream: seq<Line>) returns (trace: seq<CC.Step>)
    requires !c.live
    ensures CC.Runs(c, stream, trace) && CC.Crash !in trace
    ensures HasRead(CC.End(c, stream, trace), c, stream, |stream|)
  {
    hide HasRead;
    OneStepOn(c, stream, CC.Begin);
    var begun := CC.Stepped(c, stream, CC.Begin);
    assert HasRead(begun, c, stream, 0) by { HasBegun(c, stream); }
    var more := ReadsOn(begun, c, stream, 0);
    RunsOn(c, stream, [CC.Begin], more);
    trace := [CC.Begin] + more;
  }

  lemma HasBegun(c: CC.Collector, stream: seq<Line>)
    requires !c.live
    ensures HasRead(CC.Stepped(c, stream, CC.Begin), c, stream, 0)
  {
    assert stream[..0] == [];
    NothingRouted(After(c.bookmark));
  }

  /// So a collection leaves its files as a run of the collector does, and all
  /// that is proved of its runs is proved of it.
  method CollectAsARun(
      files: JobFiles, ghost c: CC.Collector, stream: seq<Line>, cancelAt: Option<nat>, picksCancel: nat -> bool)
    returns (collected: seq<Event>, ghost trace: seq<CC.Step>)
    requires Mirrors(files, c) && !c.live
    modifies files
    ensures CC.Runs(c, stream, trace) && CC.Crash !in trace && Mirrors(files, CC.End(c, stream, trace))
    ensures CC.End(c, stream, trace).live && CC.End(c, stream, trace).read == |stream|
  {
    hide RoutedBy, EventsLanded, OutputLanded, PositionAfter;
    trace := Uninterrupted(c, stream);
    assert stream[..|stream|] == stream;
    var cancels: nat;
    collected, cancels := files.StreamIntoLogs(stream, cancelAt, picksCancel);
  }
}
