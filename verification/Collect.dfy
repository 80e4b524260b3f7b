// Collecting a round on its host: events are kept apart from output, and a
// bookmark holds the number of the last frame collected (src/collect.rs).
module Collect {
  import opened Events
  import opened Report
  import opened Frames

  datatype Verdict = Passes | Fails

  function EventsLanded(routed: seq<Routed>): seq<Event> {
    if routed == [] then []
    else
      var n := |routed| - 1;
      EventsLanded(routed[..n]) + if routed[n].ToEvents? then [routed[n].event] else []
  }

  function OutputLanded(routed: seq<Routed>): seq<string> {
    if routed == [] then []
    else
      var n := |routed| - 1;
      OutputLanded(routed[..n]) + if routed[n].ToOutput? then [routed[n].text] else []
  }

  /// The last verdict wins; no verdict at all is a failure.
  function VerdictOf(round: seq<Event>): Verdict {
    if round == [] then Fails
    else
      var last := round[|round| - 1].kind;
      if last.RoundPassed? then Passes
      else if last.RoundFailed? then Fails
      else VerdictOf(round[..|round| - 1])
  }

  function Settled(collected: seq<Event>, endedBecause: string, now: Instant): seq<Event> {
    match VerdictMissingFrom(collected, endedBecause)
    case None => []
    case Some(kind) => [Event(now, kind)]
  }

  /// The token has fired with `n` lines read, and is taken up before the next.
  predicate NoticesCancel(lines: nat, cancelAt: Option<nat>, picksCancel: nat -> bool, n: nat) {
    cancelAt.Some? && cancelAt.value <= n <= lines && picksCancel(n)
  }

  lemma CancelIsNoticed(lines: nat, cancelAt: Option<nat>, picksCancel: nat -> bool)
    ensures (exists n: nat :: NoticesCancel(lines, cancelAt, picksCancel, n)) <==>
            exists n: nat :: cancelAt.Some? && cancelAt.value <= n <= lines && picksCancel(n)
  {
    forall n: nat
      ensures NoticesCancel(lines, cancelAt, picksCancel, n) <==>
              cancelAt.Some? && cancelAt.value <= n <= lines && picksCancel(n)
    {
    }
  }

  /// The last event that judges is a pass.
  ghost predicate EndsInAPass(events: seq<Event>) {
    exists i: nat ::
      && i < |events| && events[i].kind.RoundPassed?
      && forall k :: i < k < |events| ==> !events[k].kind.RoundPassed? && !events[k].kind.RoundFailed?
  }

  lemma {:induction false} VerdictIsTheLast(events: seq<Event>)
    ensures VerdictOf(events).Passes? <==> EndsInAPass(events)
  {
    if events != [] {
      var n := |events| - 1;
      VerdictIsTheLast(events[..n]);
      if events[n].kind.RoundPassed? {
        assert EndsInAPass(events);
      } else if !events[n].kind.RoundFailed? {
        if EndsInAPass(events[..n]) {
          var i: nat :| i < n && events[..n][i].kind.RoundPassed?
            && forall k :: i < k < n ==> !events[..n][k].kind.RoundPassed? && !events[..n][k].kind.RoundFailed?;
          assert forall k :: i < k < n ==> events[k] == events[..n][k];
          assert events[i].kind.RoundPassed?;
        }
        if EndsInAPass(events) {
          var i: nat :| i < |events| && events[i].kind.RoundPassed?
            && forall k :: i < k < |events| ==> !events[k].kind.RoundPassed? && !events[k].kind.RoundFailed?;
          assert events[..n][i].kind.RoundPassed?;
        }
      }
    }
  }

  /// Nothing is added to events that judge; to others, one failure.
  ghost predicate IsSettling(collected: seq<Event>, because: string, now: Instant, added: seq<Event>) {
    if exists i :: 0 <= i < |collected| && (collected[i].kind.RoundPassed? || collected[i].kind.RoundFailed?)
    then added == []
    else added == [Event(now, RoundFailed("the round ended without reporting a verdict: " + because))]
  }

  lemma SettledIsSettling(collected: seq<Event>, because: string, now: Instant)
    ensures IsSettling(collected, because, now, Settled(collected, because, now))
  {
  }

  // ----- what lands, by its place in the stream -----

  /// Where a collection of an in-order stream begins: at its first line without
  /// a bookmark, and else after the bookmarked frame.
  ghost predicate StartsAt(bookmark: Option<nat>, stream: seq<Line>, m: nat) {
    match bookmark
    case None => m == 0
    case Some(k) => 0 < m <= |stream| && stream[m - 1].Framed? && stream[m - 1].number == k
  }

  predicate CarriesEvent(line: Line, event: Event) {
    line.Framed? && line.body == EventBody(event)
  }

  predicate CarriesText(line: Line, text: string) {
    line == Raw(text) || (line.Framed? && line.body == OutputBody(text))
  }

  /// `events` are those of the lines at these positions from `m` on, and no
  /// other line there carries one.
  ghost predicate AreEventsFrom(stream: seq<Line>, m: nat, events: seq<Event>, at: seq<nat>) {
    && |at| == |events| && Ascends(at)
    && (forall k :: 0 <= k < |at| ==> m <= at[k] < |stream| && CarriesEvent(stream[at[k]], events[k]))
    && (forall i :: m <= i < |stream| && stream[i].Framed? && stream[i].body.EventBody? ==> i in at)
  }

  ghost predicate AreTextsFrom(stream: seq<Line>, m: nat, texts: seq<string>, at: seq<nat>) {
    && |at| == |texts| && Ascends(at)
    && (forall k :: 0 <= k < |at| ==> m <= at[k] < |stream| && CarriesText(stream[at[k]], texts[k]))
    && (forall i :: m <= i < |stream| && (stream[i].Raw? || stream[i].body.OutputBody?) ==> i in at)
  }

  /// Every line from `m` on lands once, in order, in the log it belongs to.
  ghost predicate LandsFrom(stream: seq<Line>, m: nat, events: seq<Event>, texts: seq<string>) {
    && (exists at: seq<nat> :: AreEventsFrom(stream, m, events, at))
    && (exists at: seq<nat> :: AreTextsFrom(stream, m, texts, at))
  }

  /// The number of the last frame, or what it was where there is none.
  ghost predicate IsBookmarkOf(stream: seq<Line>, m: nat, before: Option<nat>, bookmark: Option<nat>) {
    if exists i :: m <= i < |stream| && stream[i].Framed? then
      && bookmark.Some?
      && (exists i :: m <= i < |stream| && stream[i].Framed? && stream[i].number == bookmark.value)
      && (forall i :: m <= i < |stream| && stream[i].Framed? ==> stream[i].number <= bookmark.value)
    else bookmark == before
  }

  lemma OneMoreLine(stream: seq<Line>, line: Line, m: nat, events: seq<Event>, at: seq<nat>)
    requires m <= |stream| && AreEventsFrom(stream, m, events, at)
    ensures var event := Emitted(line).ToEvents?;
            AreEventsFrom(stream + [line], m, events + (if event then [Emitted(line).event] else []),
                          at + if event then [|stream|] else [])
  {
  }

  lemma OneMoreText(stream: seq<Line>, line: Line, m: nat, texts: seq<string>, at: seq<nat>)
    requires m <= |stream| && AreTextsFrom(stream, m, texts, at)
    ensures var text := Emitted(line).ToOutput?;
            AreTextsFrom(stream + [line], m, texts + (if text then [Emitted(line).text] else []),
                         at + if text then [|stream|] else [])
  {
  }

  ghost predicate LandFrom(stream: seq<Line>, m: nat, routed: seq<Routed>) {
    && |routed| == |stream|
    && forall i :: 0 <= i < |stream| ==> routed[i] == if i < m then AlreadyCollected else Emitted(stream[i])
  }

  lemma {:induction false} NothingLanded(stream: seq<Line>, m: nat, routed: seq<Routed>)
    requires LandFrom(stream, m, routed) && |stream| <= m
    ensures EventsLanded(routed) == [] && OutputLanded(routed) == []
  {
    if stream != [] {
      var n := |stream| - 1;
      NothingLanded(stream[..n], m, routed[..n]);
      assert routed[n] == AlreadyCollected;
    }
  }

  lemma {:induction false} LandedByPosition(stream: seq<Line>, m: nat, routed: seq<Routed>)
    returns (events: seq<nat>, texts: seq<nat>)
    requires LandFrom(stream, m, routed) && m <= |stream|
    ensures AreEventsFrom(stream, m, EventsLanded(routed), events)
    ensures AreTextsFrom(stream, m, OutputLanded(routed), texts)
  {
    if |stream| == m {
      NothingLanded(stream, m, routed);
      events, texts := [], [];
    } else {
      hide AreEventsFrom, AreTextsFrom, Emitted;
      var n := |stream| - 1;
      assert LandFrom(stream[..n], m, routed[..n]);
      events, texts := LandedByPosition(stream[..n], m, routed[..n]);
      assert stream == stream[..n] + [stream[n]] && routed[n] == Emitted(stream[n]);
      OneMoreLine(stream[..n], stream[n], m, EventsLanded(routed[..n]), events);
      OneMoreText(stream[..n], stream[n], m, OutputLanded(routed[..n]), texts);
      events := events + if Emitted(stream[n]).ToEvents? then [n] else [];
      texts := texts + if Emitted(stream[n]).ToOutput? then [n] else [];
    }
  }

  function BookmarkedSeq(bookmark: Option<nat>): nat {
    match bookmark
    case None => 0
    case Some(k) => k
  }

  /// To reach the bookmarked frame takes the lines up to where the collection
  /// starts.
  lemma StartIsThroughTheBookmark(bookmark: Option<nat>, stream: seq<Line>, m: nat)
    requires InOrder(stream) && StartsAt(bookmark, stream, m)
    ensures LinesThrough(stream, BookmarkedSeq(bookmark)) == m
    ensures FrameCount(stream[..m]) == BookmarkedSeq(bookmark) <= FrameCount(stream)
  {
    if m > 0 {
      var first, rest := stream[..m], stream[m..];
      assert first + rest == stream && first[..m - 1] == stream[..m - 1];
      LinesThroughPrefix(first, rest, FrameCount(first));
      LinesThroughPrefix(first, rest, 0);
    } else {
      assert stream[..0] == [];
    }
  }

  /// A collection lands what follows its bookmark, and leaves the next one.
  lemma CollectionLands(bookmark: Option<nat>, stream: seq<Line>, m: nat)
    requires InOrder(stream) && StartsAt(bookmark, stream, m) && m <= |stream|
    ensures var routed := RoutedBy(After(BookmarkedSeq(bookmark)), stream);
            LandsFrom(stream, m, EventsLanded(routed), OutputLanded(routed))
    ensures PositionAfter(After(BookmarkedSeq(bookmark)), stream).lastSeq == FrameCount(stream)
  {
    hide EventsLanded, OutputLanded, AreEventsFrom, AreTextsFrom, InOrder, StartsAt, LinesThrough, FrameCount, RoutedBy;
    var k := BookmarkedSeq(bookmark);
    StartIsThroughTheBookmark(bookmark, stream, m);
    ReplayDropsThroughBookmark(stream, k);
    var routed := RoutedBy(After(k), stream);
    var events, texts := LandedByPosition(stream, m, routed);
    assert AreEventsFrom(stream, m, EventsLanded(routed), events);
    assert AreTextsFrom(stream, m, OutputLanded(routed), texts);
  }

  lemma CountGrows(stream: seq<Line>, m: nat, n: nat)
    requires m <= n <= |stream|
    ensures FrameCount(stream[..m]) <= FrameCount(stream[..n])
  {
    assert stream[..m] + stream[m..n] == stream[..n];
    LinesThroughPrefix(stream[..m], stream[m..n], 0);
  }

  lemma FrameIsCounted(stream: seq<Line>, i: nat)
    requires InOrder(stream) && i < |stream| && stream[i].Framed?
    ensures stream[i].number == FrameCount(stream[..i + 1]) <= FrameCount(stream)
    ensures FrameCount(stream[..i]) < FrameCount(stream[..i + 1])
  {
    assert stream[..i + 1][..i] == stream[..i] && stream[..|stream|] == stream;
    CountGrows(stream, i + 1, |stream|);
  }

  /// The last frame from `m` on has the count of all for its number.
  lemma LastFrame(stream: seq<Line>, m: nat) returns (i: nat)
    requires InOrder(stream) && m <= |stream| && FrameCount(stream[..m]) < FrameCount(stream)
    ensures m <= i < |stream| && stream[i].Framed? && stream[i].number == FrameCount(stream)
  {
    hide FrameCount, InOrder, LinesThrough;
    var n := LinesThrough(stream, FrameCount(stream));
    LinesThroughItsFrame(stream, FrameCount(stream));
    i := n - 1;
    FrameIsCounted(stream, i);
    if i < m {
      CountGrows(stream, n, m);
    }
  }

  lemma BookmarkIsLastFrame(stream: seq<Line>, m: nat, before: Option<nat>, bookmark: Option<nat>)
    requires InOrder(stream) && m <= |stream|
    requires bookmark == if FrameCount(stream[..m]) < FrameCount(stream) then Some(FrameCount(stream)) else before
    ensures IsBookmarkOf(stream, m, before, bookmark)
  {
    hide FrameCount, InOrder;
    forall i | m <= i < |stream| && stream[i].Framed?
      ensures stream[i].number <= FrameCount(stream) && FrameCount(stream[..m]) < FrameCount(stream)
    {
      FrameIsCounted(stream, i);
      CountGrows(stream, m, i);
    }
    if FrameCount(stream[..m]) < FrameCount(stream) {
      var i := LastFrame(stream, m);
    }
  }

  /// What a collection writes to, and what of it outlives a crash.
  class JobFiles {
    var events: Log
    var output: seq<string>
    var bookmark: Option<nat>

    constructor (events: Log)
      ensures this.events == events && output == [] && bookmark == None
    {
      this.events, output, bookmark := events, [], None;
    }

    function LastSeqRouted(): nat
      reads this
    {
      BookmarkedSeq(bookmark)
    }

    /// Read `stream` to its end. `cancelAt` is how many lines are read by the
    /// time the token fires. With `n` read, and the next line or the end ready
    /// as well, `picksCancel(n)` says which of the two is taken up, so a token
    /// that fires with the stream all but over may go unnoticed.
    method StreamIntoLogs(stream: seq<Line>, cancelAt: Option<nat>, picksCancel: nat -> bool)
      returns (collected: seq<Event>, cancels: nat)
      modifies this
      ensures var routed := RoutedBy(After(old(LastSeqRouted())), stream);
              var end := PositionAfter(After(old(LastSeqRouted())), stream).lastSeq;
              && collected == EventsLanded(routed)
              && events == old(events) + collected
              && output == old(output) + OutputLanded(routed)
              && LastSeqRouted() == end
              && (end == old(LastSeqRouted()) ==> bookmark == old(bookmark))
      ensures InOrder(stream) ==>
                forall m :: 0 <= m <= |stream| && StartsAt(old(bookmark), stream, m) ==>
                              && LandsFrom(stream, m, collected, output[|old(output)|..])
                              && IsBookmarkOf(stream, m, old(bookmark), bookmark)
      ensures cancels == if exists n: nat :: cancelAt.Some? && cancelAt.value <= n <= |stream| && picksCancel(n)
                         then 1 else 0
    {
      hide InOrder, StartsAt, LandsFrom, IsBookmarkOf, RoutedBy, EventsLanded, OutputLanded, PositionAfter,
        StreamPosition.Route;
      var start := After(LastSeqRouted());
      NothingRouted(start);
      var position := start;
      var cancelling := false;
      var read := 0;
      collected, cancels := [], 0;
      while true
        invariant read <= |stream|
        invariant position == PositionAfter(start, stream[..read])
        invariant collected == EventsLanded(RoutedBy(start, stream[..read]))
        invariant events == old(events) + collected
        invariant output == old(output) + OutputLanded(RoutedBy(start, stream[..read]))
        invariant LastSeqRouted() == position.lastSeq && position.lastSeq >= start.lastSeq
        invariant position.lastSeq == start.lastSeq ==> bookmark == old(bookmark)
        invariant cancels == if cancelling then 1 else 0
        invariant cancelling ==> exists n: nat :: NoticesCancel(|stream|, cancelAt, picksCancel, n)
        invariant !cancelling ==> forall n :: 0 <= n < read ==> !NoticesCancel(|stream|, cancelAt, picksCancel, n)
        decreases |stream| - read, !cancelling
      {
        if !cancelling && cancelAt.Some? && cancelAt.value <= read && picksCancel(read) {
          assert NoticesCancel(|stream|, cancelAt, picksCancel, read);
          cancels := cancels + 1;
          cancelling := true;
          continue;
        }
        if read == |stream| {
          break;
        }
        var line := stream[read];
        var (next, routed) := position.Route(line);
        RoutedStep(start, stream, read);
        assert next.lastSeq >= position.lastSeq by { RouteAdvances(position, line); }
        match routed {
          case ToEvents(_, event) =>
            events := events + [event];
            collected := collected + [event];
          case ToOutput(text) => output := output + [text];
          case AlreadyCollected =>
        }
        if next.lastSeq != position.lastSeq {
          bookmark := Some(next.lastSeq);
        }
        position := next;
        read := read + 1;
      }
      CancelIsNoticed(|stream|, cancelAt, picksCancel);
      assert stream[..read] == stream;
      assert output[|old(output)|..] == OutputLanded(RoutedBy(start, stream));
      forall m | 0 <= m <= |stream| && InOrder(stream) && StartsAt(old(bookmark), stream, m)
        ensures LandsFrom(stream, m, collected, output[|old(output)|..])
        ensures IsBookmarkOf(stream, m, old(bookmark), bookmark)
      {
        CollectionLands(old(bookmark), stream, m);
        StartIsThroughTheBookmark(old(bookmark), stream, m);
        BookmarkIsLastFrame(stream, m, old(bookmark), bookmark);
      }
    }

    /// Collect a round's stream, then settle its verdict.
    method Collect(
        stream: seq<Line>, endedBecause: string, now: Instant, cancelAt: Option<nat>, picksCancel: nat -> bool)
      returns (verdict: Verdict)
      modifies this
      ensures var collected := EventsLanded(RoutedBy(After(old(LastSeqRouted())), stream));
              && events == old(events) + collected + Settled(collected, endedBecause, now)
              && verdict == VerdictOf(collected + Settled(collected, endedBecause, now))
              && (verdict.Passes? <==> EndsInAPass(events[|old(events)|..]))
              && IsSettling(collected, endedBecause, now, events[|old(events) + collected|..])
              && old(output) <= output
              && (InOrder(stream) ==>
                    forall m :: 0 <= m <= |stream| && StartsAt(old(bookmark), stream, m) ==>
                                  && LandsFrom(stream, m, collected, output[|old(output)|..])
                                  && IsBookmarkOf(stream, m, old(bookmark), bookmark))
    {
      hide InOrder, StartsAt, LandsFrom, IsBookmarkOf, RoutedBy, EventsLanded, OutputLanded, Settled, VerdictOf,
        EndsInAPass;
      var collected, cancels := StreamIntoLogs(stream, cancelAt, picksCancel);
      var settled := Settled(collected, endedBecause, now);
      SettledIsSettling(collected, endedBecause, now);
      VerdictIsTheLast(collected + settled);
      assert events + settled == old(events) + (collected + settled);
      events := events + settled;
      verdict := VerdictOf(collected + settled);
    }
  }

  lemma NothingRouted(start: StreamPosition)
    ensures PositionAfter(start, []) == start
    ensures EventsLanded(RoutedBy(start, [])) == [] && OutputLanded(RoutedBy(start, [])) == []
  {
  }

  lemma RouteAdvances(position: StreamPosition, line: Line)
    ensures position.Route(line).0.lastSeq >= position.lastSeq
  {
  }

  lemma RoutedStep(start: StreamPosition, stream: seq<Line>, read: nat)
    requires read < |stream|
    ensures var routed := PositionAfter(start, stream[..read]).Route(stream[read]).1;
            && PositionAfter(start, stream[..read + 1]) == PositionAfter(start, stream[..read]).Route(stream[read]).0
            && EventsLanded(RoutedBy(start, stream[..read + 1]))
               == EventsLanded(RoutedBy(start, stream[..read])) + (if routed.ToEvents? then [routed.event] else [])
            && OutputLanded(RoutedBy(start, stream[..read + 1]))
               == OutputLanded(RoutedBy(start, stream[..read])) + (if routed.ToOutput? then [routed.text] else [])
  {
    assert stream[..read + 1][..read] == stream[..read];
    var before := RoutedBy(start, stream[..read]);
    var routed := PositionAfter(start, stream[..read]).Route(stream[read]).1;
    assert (before + [routed])[..read] == before;
  }

  // ----- one verdict -----

  function VerdictCount(events: seq<Event>): nat {
    if events == [] then 0
    else VerdictCount(events[..|events| - 1]) + if events[|events| - 1].kind.IsVerdict() then 1 else 0
  }

  lemma {:induction false} NoVerdictCounted(events: seq<Event>)
    ensures VerdictCount(events) == 0 <==> forall i :: 0 <= i < |events| ==> !events[i].kind.IsVerdict()
  {
    if events != [] {
      var n := |events| - 1;
      NoVerdictCounted(events[..n]);
    }
  }

  /// With what a collector adds, a round that reported at most one verdict has
  /// exactly one.
  lemma SettledHasOneVerdict(collected: seq<Event>, endedBecause: string, now: Instant)
    ensures var settled := Settled(collected, endedBecause, now);
            VerdictCount(collected + settled) == if VerdictCount(collected) == 0 then 1 else VerdictCount(collected)
    ensures Settled(collected, endedBecause, now) != [] <==> VerdictCount(collected) == 0
  {
    NoVerdictCounted(collected);
    var settled := Settled(collected, endedBecause, now);
    if settled == [] {
      assert collected + settled == collected;
    } else {
      assert (collected + settled)[..|collected|] == collected;
    }
  }

  /// A collection's verdict is what the job's log folds to afterwards.
  lemma {:induction false} VerdictAgreesWithReport(log: Log, round: seq<Event>)
    requires VerdictCount(round) > 0
    requires forall i :: 0 <= i < |round| ==> !round[i].kind.RoundRequested? && !round[i].kind.RoundStarted?
    ensures FromEvents(log + round).state == if VerdictOf(round) == Passes then Passed else Failed
  {
    var n := |round| - 1;
    assert (log + round)[..|log| + n] == log + round[..n];
    if !round[n].kind.IsVerdict() {
      VerdictAgreesWithReport(log, round[..n]);
    }
  }
}
