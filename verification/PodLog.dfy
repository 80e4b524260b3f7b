// A pod's log, read over streams that drop and replay (src/runner/kubernetes.rs).
// A stamp is an instant, as the code compares them; kubectl's spelling of it is
// left out.
module PodLog {
  import opened Events

  type Stamp = nat

  datatype Stamped = Stamped(stamp: Stamp, text: string)

  /// The pod's whole log: stamps never go back.
  ghost predicate Ordered(log: seq<Stamped>) {
    forall i, k :: 0 <= i < k < |log| ==> log[i].stamp <= log[k].stamp
  }

  /// The stamp of the last line accepted, with the number accepted under that
  /// stamp; and how many lines bearing it the present stream has shown.
  datatype LogReadPosition = LogReadPosition(readUpTo: Option<(Stamp, nat)>, shown: nat)
  {
    function ResumeFrom(): Option<Stamp> {
      match readUpTo
      case None => None
      case Some((stamp, _)) => Some(stamp)
    }

    function Resumed(): LogReadPosition {
      this.(shown := 0)
    }

    /// Counted among those of its stamp, and accepted if past the count.
    function AfterLine(stamp: Stamp): (LogReadPosition, bool) {
      match readUpTo
      case None => (LogReadPosition(Some((stamp, 1)), 1), true)
      case Some((last, lines)) =>
        if stamp < last then (this, false)
        else if stamp == last then
          (LogReadPosition(Some((last, if shown + 1 > lines then shown + 1 else lines)), shown + 1), shown + 1 > lines)
        else (LogReadPosition(Some((stamp, 1)), 1), true)
    }
  }

  const UNREAD := LogReadPosition(None, 0)

  /// A stream may start at `start`: at 0 with nothing read, and otherwise
  /// wherever every line skipped is older than the stamp it resumes from.
  ghost predicate Restarts(log: seq<Stamped>, since: Option<Stamp>, start: nat) {
    match since
    case None => start == 0
    case Some(stamp) => start <= |log| && forall i :: 0 <= i < start ==> log[i].stamp < stamp
  }

  /// Exactly `log[..high]` has been read; `first` is where the last stamp read
  /// begins.
  ghost predicate HasRead(log: seq<Stamped>, p: LogReadPosition, high: nat, first: nat) {
    && high <= |log|
    && if high == 0 then p.readUpTo == None
       else
         && first < high
         && p.readUpTo == Some((log[high - 1].stamp, high - first))
         && log[first].stamp == log[high - 1].stamp
         && (first > 0 ==> log[first - 1].stamp < log[first].stamp)
  }

  /// This stream has shown the log from some valid start up to `cursor`.
  ghost predicate HasShown(p: LogReadPosition, high: nat, first: nat, cursor: nat) {
    && cursor <= high
    && (high > 0 ==> p.shown == if cursor > first then cursor - first else 0)
  }

  lemma RestartShows(log: seq<Stamped>, p: LogReadPosition, high: nat, first: nat, start: nat)
    requires Ordered(log) && HasRead(log, p, high, first) && Restarts(log, p.ResumeFrom(), start)
    ensures HasRead(log, p.Resumed(), high, first) && HasShown(p.Resumed(), high, first, start)
  {
    assert high > 0 ==> log[first].stamp == log[high - 1].stamp && start <= first;
  }

  /// A line is accepted exactly when it is the first one not read.
  lemma LineIsReadOnce(log: seq<Stamped>, p: LogReadPosition, high: nat, first: nat, cursor: nat)
    returns (high': nat, first': nat)
    requires Ordered(log) && HasRead(log, p, high, first) && HasShown(p, high, first, cursor)
    requires cursor < |log|
    ensures var (p', unread) := p.AfterLine(log[cursor].stamp);
            && unread == (cursor == high)
            && high' == high + (if unread then 1 else 0)
            && HasRead(log, p', high', first') && HasShown(p', high', first', cursor + 1)
  {
    if high == 0 {
      high', first' := 1, 0;
    } else {
      var last := log[high - 1].stamp;
      if cursor == high {
        high', first' := high + 1, if log[cursor].stamp > last then cursor else first;
      } else {
        high', first' := high, first;
        assert log[cursor].stamp <= last;
        if cursor < first {
          assert log[cursor].stamp <= log[first - 1].stamp;
        }
      }
    }
  }

  // ----- any sequence of dropped streams -----

  /// One `kubectl logs`: the lines it shows, and, if it ends inside the text of
  /// the last of them, how much of that text it shows. One that ends inside the
  /// stamp shows that line only as one of `kubectl`'s own.
  datatype Shown = Shown(start: nat, end: nat, cut: Option<nat>)

  function ShownText(log: seq<Stamped>, shown: Shown, i: nat): string
    requires i < |log|
  {
    var text := log[i].text;
    if i + 1 == shown.end && shown.cut.Some? && shown.cut.value < |text| then text[..shown.cut.value] else text
  }

  function Reading(log: seq<Stamped>, p: LogReadPosition, shown: Shown, cursor: nat): (LogReadPosition, seq<string>)
    requires cursor <= shown.end <= |log|
    decreases shown.end - cursor
  {
    if cursor == shown.end then (p, [])
    else
      var (p', unread) := p.AfterLine(log[cursor].stamp);
      var (p'', texts) := Reading(log, p', shown, cursor + 1);
      (p'', (if unread then [ShownText(log, shown, cursor)] else []) + texts)
  }

  /// Each stream restarts by what was read before it.
  ghost predicate Streams(log: seq<Stamped>, p: LogReadPosition, streams: seq<Shown>)
    decreases |streams|
  {
    streams == [] ||
    (&& streams[0].start <= streams[0].end <= |log|
     && Restarts(log, p.ResumeFrom(), streams[0].start)
     && Streams(log, Reading(log, p.Resumed(), streams[0], streams[0].start).0, streams[1..]))
  }

  ghost function ReadOver(log: seq<Stamped>, p: LogReadPosition, streams: seq<Shown>): seq<string>
    requires Streams(log, p, streams)
    decreases |streams|
  {
    if streams == [] then []
    else
      var (p', texts) := Reading(log, p.Resumed(), streams[0], streams[0].start);
      texts + ReadOver(log, p', streams[1..])
  }

  /// A line's text as the first stream to reach it shows it.
  function FirstShown(log: seq<Stamped>, streams: seq<Shown>, i: nat): string
    requires i < |log|
    decreases |streams|
  {
    if streams == [] then log[i].text
    else if i < streams[0].end then ShownText(log, streams[0], i)
    else FirstShown(log, streams[1..], i)
  }

  function FirstTexts(log: seq<Stamped>, streams: seq<Shown>, high: nat, high': nat): seq<string>
    requires high <= high' <= |log|
  {
    seq(high' - high, k requires 0 <= k < high' - high => FirstShown(log, streams, high + k))
  }

  function ShownTexts(log: seq<Stamped>, shown: Shown, high: nat, high': nat): seq<string>
    requires high <= high' <= |log|
  {
    seq(high' - high, k requires 0 <= k < high' - high => ShownText(log, shown, high + k))
  }

  function Texts(lines: seq<Stamped>): seq<string> {
    seq(|lines|, i requires 0 <= i < |lines| => lines[i].text)
  }

  lemma TextsFrom(log: seq<Stamped>, shown: Shown, high: nat, high': nat)
    requires high < high' <= |log|
    ensures ShownTexts(log, shown, high, high')
            == [ShownText(log, shown, high)] + ShownTexts(log, shown, high + 1, high')
  {
  }

  lemma NoTexts(log: seq<Stamped>, shown: Shown, high: nat)
    requires high <= |log|
    ensures ShownTexts(log, shown, high, high) == []
  {
  }

  lemma TextsInParts(log: seq<Stamped>, streams: seq<Shown>, high: nat, h: nat, high': nat)
    requires streams != [] && high <= h <= high' <= |log|
    requires h == if streams[0].end > high then streams[0].end else high
    ensures FirstTexts(log, streams, high, high')
            == ShownTexts(log, streams[0], high, h) + FirstTexts(log, streams[1..], h, high')
  {
    hide ShownText, FirstShown;
    var rest := streams[1..];
    var whole := FirstTexts(log, streams, high, high');
    var parts := ShownTexts(log, streams[0], high, h) + FirstTexts(log, rest, h, high');
    forall k | 0 <= k < |whole| ensures whole[k] == parts[k] {
      FirstOfBoth(log, streams, high + k);
      assert high + k >= h ==> parts[k] == FirstTexts(log, rest, h, high')[high + k - h];
    }
  }

  lemma FirstOfBoth(log: seq<Stamped>, streams: seq<Shown>, i: nat)
    requires streams != [] && i < |log|
    ensures FirstShown(log, streams, i)
            == if i < streams[0].end then ShownText(log, streams[0], i) else FirstShown(log, streams[1..], i)
  {
  }

  lemma {:induction false} StreamReadsNewLines(
      log: seq<Stamped>, p: LogReadPosition, high: nat, first: nat, shown: Shown, cursor: nat)
    returns (high': nat, first': nat)
    requires Ordered(log) && HasRead(log, p, high, first) && HasShown(p, high, first, cursor)
    requires cursor <= shown.end <= |log|
    ensures var (p', texts) := Reading(log, p, shown, cursor);
            && high' == (if shown.end > high then shown.end else high)
            && HasRead(log, p', high', first')
            && texts == ShownTexts(log, shown, high, high')
    decreases shown.end - cursor
  {
    hide Ordered, ShownTexts, ShownText;
    if cursor == shown.end {
      high', first' := high, first;
      NoTexts(log, shown, high);
    } else {
      var h, f := LineIsReadOnce(log, p, high, first, cursor);
      high', first' := StreamReadsNewLines(log, p.AfterLine(log[cursor].stamp).0, h, f, shown, cursor + 1);
      if cursor == high {
        TextsFrom(log, shown, high, high');
      }
    }
  }

  lemma {:induction false} StreamsReadOn(
      log: seq<Stamped>, p: LogReadPosition, high: nat, first: nat, streams: seq<Shown>)
    returns (high': nat)
    requires Ordered(log) && HasRead(log, p, high, first) && Streams(log, p, streams)
    ensures high <= high' <= |log|
    ensures ReadOver(log, p, streams) == FirstTexts(log, streams, high, high')
    ensures forall i :: 0 <= i < |streams| ==> streams[i].end <= high'
    decreases |streams|
  {
    hide Ordered, HasShown, FirstTexts, ShownTexts, Reading, Restarts;
    if streams == [] {
      high' := high;
      NoFirstTexts(log, streams, high);
    } else {
      RestartShows(log, p, high, first, streams[0].start);
      var h, f := StreamReadsNewLines(log, p.Resumed(), high, first, streams[0], streams[0].start);
      var p' := Reading(log, p.Resumed(), streams[0], streams[0].start).0;
      high' := StreamsReadOn(log, p', h, f, streams[1..]);
      TextsInParts(log, streams, high, h, high');
      forall i | 0 <= i < |streams| ensures streams[i].end <= high' {
        assert i > 0 ==> streams[i] == streams[1..][i - 1];
      }
    }
  }

  lemma NoFirstTexts(log: seq<Stamped>, streams: seq<Shown>, high: nat)
    requires high <= |log|
    ensures FirstTexts(log, streams, high, high) == []
  {
  }

  /// However many streams there are, wherever each ends and however far back
  /// the next one starts, a line is accepted for each of the log's first ones:
  /// none twice, skipped or out of order, however many share a stamp. Each is
  /// as the first stream to reach it shows it, so together they are the log's
  /// first lines exactly if none of those streams ended inside it.
  lemma AcceptedIsAPrefix(log: seq<Stamped>, streams: seq<Shown>)
    requires Ordered(log) && Streams(log, UNREAD, streams)
    ensures exists high: nat ::
              && high <= |log| && (forall i :: 0 <= i < |streams| ==> streams[i].end <= high)
              && |ReadOver(log, UNREAD, streams)| == high
              && (forall i :: 0 <= i < high ==> ReadOver(log, UNREAD, streams)[i] == FirstShown(log, streams, i))
              && (ReadOver(log, UNREAD, streams) == Texts(log[..high]) <==> AllWhole(log, streams, high))
  {
    hide Ordered, Streams, ReadOver, Texts, AllWhole, FirstShown;
    assert HasRead(log, UNREAD, 0, 0);
    var high := StreamsReadOn(log, UNREAD, 0, 0, streams);
    WholeTexts(log, streams, high);
  }

  /// The stream a line is first shown by is the first to go past it, and shows
  /// it short only by ending inside its text.
  lemma {:induction false} FirstShownIsFirst(log: seq<Stamped>, streams: seq<Shown>, i: nat) returns (s: nat)
    requires i < |log|
    ensures s <= |streams| && forall r :: 0 <= r < s ==> streams[r].end <= i
    ensures s < |streams| ==>
              var text := log[i].text;
              && i < streams[s].end
              && FirstShown(log, streams, i)
                 == match streams[s].cut
                    case None => text
                    case Some(n) => if i + 1 < streams[s].end || n >= |text| then text else text[..n]
  {
    s := 0;
    if streams != [] && streams[0].end <= i {
      s := FirstShownIsFirst(log, streams[1..], i);
      s := s + 1;
    }
  }

  /// The first stream to reach each of the first lines shows it whole.
  ghost predicate AllWhole(log: seq<Stamped>, streams: seq<Shown>, high: nat)
    requires high <= |log|
  {
    forall i :: 0 <= i < high ==> FirstShown(log, streams, i) == log[i].text
  }

  lemma WholeTexts(log: seq<Stamped>, streams: seq<Shown>, high: nat)
    requires high <= |log|
    ensures FirstTexts(log, streams, 0, high) == Texts(log[..high]) <==> AllWhole(log, streams, high)
  {
    hide FirstShown;
    var first, whole := FirstTexts(log, streams, 0, high), Texts(log[..high]);
    assert |first| == |whole| == high;
    assert forall i :: 0 <= i < high ==> first[i] == FirstShown(log, streams, i) && whole[i] == log[i].text;
    if AllWhole(log, streams, high) {
      assert first == whole;
    }
  }

  /// A stream that ends inside a line's text leaves the rest of it unread for
  /// good, though the next stream shows the line whole.
  lemma ACutLineIsNotReadAgain()
    ensures var (log, streams) := ([Stamped(1, "ab")], [Shown(0, 1, Some(1)), Shown(0, 1, None)]);
            Ordered(log) && Streams(log, UNREAD, streams) && ReadOver(log, UNREAD, streams) == ["a"] != Texts(log)
  {
    var log, streams := [Stamped(1, "ab")], [Shown(0, 1, Some(1)), Shown(0, 1, None)];
    var read := LogReadPosition(Some((1, 1)), 1);
    assert log[0].text[..1] == "a";
    assert Reading(log, read, streams[0], 1) == (read, []) == Reading(log, read, streams[1], 1);
    assert ShownText(log, streams[0], 0) == "a" && ["a"] + [] == ["a"];
    assert Reading(log, UNREAD.Resumed(), streams[0], 0) == (read, ["a"]);
    assert read.Resumed().AfterLine(1) == (read, false);
    assert [] + Reading(log, read, streams[1], 1).1 == [];
    assert Reading(log, read.Resumed(), streams[1], 0) == (read, []);
    assert streams[1..] == [streams[1]] && streams[1..][1..] == [];
    assert Streams(log, read, []) && Streams(log, read, streams[1..]);
    assert Texts(log)[0] == "ab";
  }

  // ----- reconnecting: KubernetesRound::next_line -----

  const FRUITLESS_RECONNECTS_ALLOWED := 5

  /// A line of a `kubectl logs`: the pod's, or `kubectl`'s own complaint.
  datatype PodLine = OfPod(line: Stamped) | OfKubectl(text: string)

  /// A pod's line without its stamp, or what `kubectl` said.
  predicate IsTextOf(text: string, line: PodLine) {
    match line
    case OfPod(stamped) => text == stamped.text
    case OfKubectl(said) => text == said
  }

  /// What one more line handed on is: the log's next line, short only where a
  /// connection ended inside it, or what `kubectl` said.
  ghost predicate IsNext(line: PodLine, text: string, log: seq<Stamped>, high: nat, high': nat, cuts: set<nat>) {
    && IsTextOf(text, line)
    && match line
       case OfPod(stamped) =>
         && high < |log| && high' == high + 1 && stamped.stamp == log[high].stamp
         && text <= log[high].text && (text != log[high].text ==> high + 1 in cuts)
       case OfKubectl(_) => high' == high
  }

  lemma OneMoreReturned(
      returned: seq<string>, told: seq<PodLine>, line: PodLine, text: Option<string>, log: seq<Stamped>,
      high: nat, high': nat, cuts: set<nat>)
    requires AreTextsOf(returned, told) && (text.Some? ==> IsNext(line, text.value, log, high, high', cuts))
    ensures text.Some? ==> AreTextsOf(returned + [text.value], told + [line])
  {
  }

  /// The strings handed on are the texts of the lines told.
  ghost predicate AreTextsOf(returned: seq<string>, told: seq<PodLine>) {
    |returned| == |told| && forall i :: 0 <= i < |told| ==> IsTextOf(returned[i], told[i])
  }

  datatype LogStream = Following(lines: seq<PodLine>) | Draining(lines: seq<PodLine>) | Ended

  datatype PodStatus = IsRunning | IsFinished | IsWaitingOrGone | IsUnreadable(reason: string)

  /// One `kubectl logs`: its lines up to where it ends, and whether it lasted
  /// long enough to have been a live connection.
  datatype Connection = Connection(lines: seq<PodLine>, held: bool)

  /// Which `kubectl logs` it was, and the stamp it was resumed from.
  type Asked = (nat, Option<Stamp>)

  /// What the cluster answers: the `n`th `kubectl logs`, or why it could not
  /// be spawned, and the `n`th status read.
  datatype Cluster = Cluster(connect: (nat, Option<Stamp>) -> Result<Connection>, status: nat -> PodStatus)
  {
    function LinesOf(asked: Asked): seq<PodLine> {
      match connect(asked.0, asked.1)
      case Ok(connection) => connection.lines
      case Err(_) => []
    }

    function AllLines(history: seq<Asked>): seq<PodLine> {
      if history == [] then [] else AllLines(history[..|history| - 1]) + LinesOf(history[|history| - 1])
    }
  }

  function OfThePod(lines: seq<PodLine>): seq<Stamped> {
    if lines == [] then []
    else (if lines[0].OfPod? then [lines[0].line] else []) + OfThePod(lines[1..])
  }

  function OfKubectlItself(lines: seq<PodLine>): seq<string> {
    if lines == [] then []
    else
      var n := |lines| - 1;
      OfKubectlItself(lines[..n]) + if lines[n].OfKubectl? then [lines[n].text] else []
  }

  /// Where in the pod's log each connection starts and stops.
  type Stretches = (nat, Option<Stamp>) -> (nat, nat)

  /// The lines are those of the stretch, but that the last may be cut short.
  ghost predicate ReadsAs(lines: seq<Stamped>, stretch: seq<Stamped>) {
    && |lines| == |stretch|
    && forall i :: 0 <= i < |lines| ==>
                     && lines[i].stamp == stretch[i].stamp && lines[i].text <= stretch[i].text
                     && (i + 1 < |lines| ==> lines[i] == stretch[i])
  }

  /// The connection ended inside the last line of its stretch.
  ghost predicate EndedInside(cluster: Cluster, log: seq<Stamped>, stretch: Stretches, asked: Asked) {
    var (start, stop) := stretch(asked.0, asked.1);
    start <= stop <= |log| && OfThePod(cluster.LinesOf(asked)) != log[start..stop]
  }

  /// Where in the log connections ended inside a line: one past each.
  ghost function Cuts(cluster: Cluster, log: seq<Stamped>, stretch: Stretches, history: seq<Asked>): set<nat> {
    if history == [] then {}
    else
      var last := history[|history| - 1];
      Cuts(cluster, log, stretch, history[..|history| - 1])
      + if EndedInside(cluster, log, stretch, last) then {stretch(last.0, last.1).1} else {}
  }

  /// Every connection shows its stretch of the one pod log, from a valid start.
  ghost predicate Serves(cluster: Cluster, log: seq<Stamped>, stretch: Stretches) {
    forall n, since :: cluster.connect(n, since).Ok? ==>
      ShowsStretch(cluster.connect(n, since).value.lines, log, since, stretch(n, since))
  }

  ghost predicate ShowsStretch(lines: seq<PodLine>, log: seq<Stamped>, since: Option<Stamp>, stretch: (nat, nat)) {
    && stretch.0 <= stretch.1 <= |log|
    && Restarts(log, since, stretch.0) && ReadsAs(OfThePod(lines), log[stretch.0..stretch.1])
  }

  datatype Happening = Reconnected | NewLine | HeldLong

  function Count(trace: seq<Happening>, happening: Happening): nat {
    if trace == [] then 0
    else Count(trace[..|trace| - 1], happening) + if trace[|trace| - 1] == happening then 1 else 0
  }

  function HeldCount(cluster: Cluster, history: seq<Asked>): nat {
    if history == [] then 0
    else
      var n := |history| - 1;
      var last := cluster.connect(history[n].0, history[n].1);
      HeldCount(cluster, history[..n]) + if last.Ok? && last.value.held then 1 else 0
  }

  /// Reconnects since the last new line or connection that held.
  function Trailing(trace: seq<Happening>): nat {
    if trace == [] || trace[|trace| - 1] != Reconnected then 0 else 1 + Trailing(trace[..|trace| - 1])
  }

  ghost predicate NeverMoreThanAllowed(trace: seq<Happening>) {
    forall n :: 0 <= n <= |trace| ==> Trailing(trace[..n]) <= FRUITLESS_RECONNECTS_ALLOWED
  }

  /// Between two new lines or held connections, no more than five reconnects.
  lemma {:induction false} ReconnectsBetween(trace: seq<Happening>, from: nat, to: nat)
    requires NeverMoreThanAllowed(trace) && from <= to <= |trace|
    requires forall i :: from <= i < to ==> trace[i] == Reconnected
    ensures to - from <= 5
  {
    TrailingRun(trace, from, to);
  }

  lemma {:induction false} TrailingRun(trace: seq<Happening>, from: nat, to: nat)
    requires from <= to <= |trace|
    requires forall i :: from <= i < to ==> trace[i] == Reconnected
    ensures Trailing(trace[..to]) >= to - from
  {
    if from < to {
      TrailingRun(trace, from, to - 1);
      assert trace[..to][..to - 1] == trace[..to - 1];
    }
  }

  /// The trace is of what happened: a reconnect for each `kubectl logs -f`
  /// after the first, a new line for each line read, and a hold only where a
  /// connection since ended had held.
  ghost predicate TraceOk(
      trace: seq<Happening>, fruitless: nat, cluster: Cluster, history: seq<Asked>, draining: bool,
      high: nat, ended: nat)
  {
    && fruitless == Trailing(trace) <= FRUITLESS_RECONNECTS_ALLOWED && NeverMoreThanAllowed(trace)
    && |history| == 1 + Count(trace, Reconnected) + (if draining then 1 else 0)
    && Count(trace, NewLine) == high
    && ended <= |history| && Count(trace, HeldLong) == HeldCount(cluster, history[..ended])
  }

  /// Every line heard was told, but for the pod's that were read before: the
  /// pod's are its log's first ones, short only where a connection ended inside
  /// one; `kubectl`'s are all of them.
  ghost predicate ToldOk(told: seq<PodLine>, heard: seq<PodLine>, log: seq<Stamped>, high: nat, cuts: set<nat>) {
    && high <= |log| && AreRead(OfThePod(told), log[..high], cuts)
    && OfKubectlItself(told) == OfKubectlItself(heard)
  }

  ghost predicate AreRead(lines: seq<Stamped>, log: seq<Stamped>, cuts: set<nat>) {
    && |lines| == |log|
    && forall i :: 0 <= i < |lines| ==>
                     && lines[i].stamp == log[i].stamp && lines[i].text <= log[i].text
                     && (lines[i] != log[i] ==> i + 1 in cuts)
  }

  /// The stream is what is left of the last connection asked for.
  ghost predicate StreamOk(
      lines: seq<PodLine>, cluster: Cluster, log: seq<Stamped>, stretch: Stretches, asked: Asked,
      position: LogReadPosition, high: nat, first: nat, cursor: nat)
  {
    && cluster.connect(asked.0, asked.1).Ok?
    && cursor <= stretch(asked.0, asked.1).1 <= |log|
    && HasShown(position, high, first, cursor)
    && ReadsAs(OfThePod(lines), log[cursor..stretch(asked.0, asked.1).1])
    && (OfThePod(lines) != log[cursor..stretch(asked.0, asked.1).1] ==> EndedInside(cluster, log, stretch, asked))
  }

  /// Why a stream that keeps ending is given up, with what `kubectl` last said.
  function KeptEnding(lastSaid: Option<string>): string {
    "`kubectl logs` kept ending with no output while the pod ran"
    + match lastSaid case Some(said) => ": " + said case None => ""
  }

  lemma KeptEndingSays(said: string)
    ensures KeptEnding(None) == "`kubectl logs` kept ending with no output while the pod ran"
    ensures KeptEnding(Some(said)) == "`kubectl logs` kept ending with no output while the pod ran: " + said
  {
    var reason := "`kubectl logs` kept ending with no output while the pod ran";
    assert reason + (": " + said) == (reason + ": ") + said;
  }

  /// The last of `kubectl`'s own lines heard.
  ghost predicate IsLastSaid(kept: Option<string>, heard: seq<PodLine>) {
    match kept
    case Some(said) =>
      exists i :: 0 <= i < |heard| && heard[i] == OfKubectl(said) && forall k :: i < k < |heard| ==> heard[k].OfPod?
    case None =>
      forall i :: 0 <= i < |heard| ==> heard[i].OfPod?
  }

  lemma OneMoreSaid(kept: Option<string>, heard: seq<PodLine>, line: PodLine)
    requires IsLastSaid(kept, heard)
    ensures IsLastSaid(if line.OfKubectl? then Some(line.text) else kept, heard + [line])
  {
    var longer := heard + [line];
    if line.OfKubectl? {
      assert longer[|heard|] == OfKubectl(line.text);
    } else if kept.Some? {
      var i :| 0 <= i < |heard| && heard[i] == OfKubectl(kept.value) && forall k :: i < k < |heard| ==> heard[k].OfPod?;
      assert longer[i] == OfKubectl(kept.value);
    }
  }

  ghost predicate NoneHeldFrom(cluster: Cluster, from: nat) {
    forall n, since :: n >= from && cluster.connect(n, since).Ok? ==> !cluster.connect(n, since).value.held
  }

  class KubernetesRound {
    const cluster: Cluster
    ghost const log: seq<Stamped>
    ghost const stretch: Stretches
    /// From this connection on, none holds: a round that never ends is one
    /// whose connections hold for ever.
    ghost const lastHeld: nat

    var stream: LogStream
    var position: LogReadPosition
    var fruitlessReconnects: nat
    var heldLong: bool
    var lastUnstampedLine: Option<string>
    var abandonedBecause: Option<string>
    var connections: nat
    var statusReads: nat

    ghost var trace: seq<Happening>
    ghost var history: seq<Asked>
    ghost var heard: seq<PodLine>
    ghost var told: seq<PodLine>
    ghost var returned: seq<string>
    ghost var high: nat
    ghost var first: nat
    ghost var cursor: nat
    ghost var drained: bool

    /// The pod's log is in order, and connections stop holding in the end.
    ghost predicate Environment() {
      && Ordered(log) && Serves(cluster, log, stretch)
      && NoneHeldFrom(cluster, lastHeld)
    }

    ghost function CutsThere(): set<nat>
      reads this
    {
      Cuts(cluster, log, stretch, history)
    }

    ghost function Last(): Asked
      reads this
      requires history != []
    {
      history[|history| - 1]
    }

    ghost function LinesLeft(): seq<PodLine>
      reads this
    {
      if stream.Ended? then [] else stream.lines
    }

    ghost predicate Valid()
      reads this
    {
      && Environment() && history != []
      && HasRead(log, position, high, first)
      && TraceOk(trace, fruitlessReconnects, cluster, history, drained, high,
                 |history| - if stream.Following? || drained then 1 else 0)
      && ToldOk(told, heard, log, high, CutsThere()) && AreTextsOf(returned, told)
      && heard + LinesLeft() == cluster.AllLines(history) && IsLastSaid(lastUnstampedLine, heard)
      && (!stream.Ended? ==>
            && abandonedBecause == None && connections == |history| && Last().0 == connections - 1
            && StreamOk(stream.lines, cluster, log, stretch, Last(), position, high, first, cursor))
      && (stream.Following? ==>
            && !drained && cluster.connect(Last().0, Last().1).Ok?
            && heldLong == cluster.connect(Last().0, Last().1).value.held)
      && (stream.Draining? ==> drained && statusReads > 0 && cluster.status(statusReads - 1) == IsFinished)
      && (stream.Ended? ==> EndedFor())
    }

    /// Why there is nothing more to read, by the last status read: a pod gone;
    /// one finished, and its log drained to where the drain ends or not to be
    /// had; or a stream abandoned, for the reason kept.
    ghost predicate EndedFor()
      reads this
    {
      && statusReads > 0 && connections > 0 && (drained ==> cluster.status(statusReads - 1) == IsFinished)
      && match cluster.status(statusReads - 1)
         case IsRunning =>
           && abandonedBecause.Some?
           && (|| (fruitlessReconnects == 5 && abandonedBecause.value == KeptEnding(lastUnstampedLine))
               || cluster.connect(connections - 1, position.ResumeFrom()) == Err(abandonedBecause.value))
         case IsFinished =>
           && abandonedBecause == None
           && (if drained then
                 history != [] && Last().0 == connections - 1
                 && cluster.connect(Last().0, Last().1).Ok? && stretch(Last().0, Last().1).1 <= high
               else cluster.connect(connections - 1, position.ResumeFrom()).Err?)
         case IsWaitingOrGone => abandonedBecause == None
         case IsUnreadable(reason) => abandonedBecause == Some(reason)
    }

    /// What is left to do, most significant first: kinds of stream to go
    /// through, connections that may hold, reconnects, lines.
    ghost function KindsLeft(): nat
      reads this
    {
      if stream.Following? then 2 else if stream.Draining? then 1 else 0
    }

    ghost function HoldsLeft(): nat
      reads this
    {
      if connections <= lastHeld then lastHeld + 1 - connections else 0
    }

    /// Follow the log from its start, as a launch and a reattach do.
    constructor (cluster: Cluster, ghost log: seq<Stamped>, ghost stretch: Stretches, ghost lastHeld: nat)
      requires Ordered(log) && Serves(cluster, log, stretch) && cluster.connect(0, None).Ok?
      requires NoneHeldFrom(cluster, lastHeld)
      ensures Valid() && returned == [] && told == [] && high == 0 && trace == [] && stream.Following?
      ensures this.cluster == cluster && this.log == log && this.stretch == stretch
    {
      this.cluster, this.log, this.stretch, this.lastHeld := cluster, log, stretch, lastHeld;
      var connection := cluster.connect(0, None).value;
      stream, position, fruitlessReconnects, heldLong := Following(connection.lines), UNREAD, 0, connection.held;
      lastUnstampedLine, abandonedBecause, connections, statusReads := None, None, 1, 0;
      trace, heard, told, returned, high, first, cursor, drained := [], [], [], [], 0, 0, 0, false;
      history := [(0, None)];
      new;
      hide Environment, HasRead, StreamOk, TraceOk, ToldOk, Cluster.AllLines, Cuts, Serves, Ordered, NoneHeldFrom;
      NothingYet(cluster, log, stretch);
      assert Environment() by { ThatEnvironment(); }
      assert [] + connection.lines == connection.lines;
    }

    lemma ThatEnvironment()
      requires Ordered(log) && Serves(cluster, log, stretch) && NoneHeldFrom(cluster, lastHeld)
      ensures Environment()
    {
    }

    /// One of the pod's own lines: its text, if it was not read before.
    method PodText(line: PodLine) returns (text: Option<string>)
      requires Valid() && !stream.Ended? && stream.lines != [] && line == stream.lines[0] && line.OfPod?
      modifies `position, `fruitlessReconnects, `trace, `told, `high, `first, `cursor
      ensures HasRead(log, position, high, first)
      ensures StreamOk(stream.lines[1..], cluster, log, stretch, Last(), position, high, first, cursor)
      ensures TraceOk(trace, fruitlessReconnects, cluster, history, drained, high,
                      |history| - if stream.Following? || drained then 1 else 0)
      ensures old(trace) <= trace && ToldOk(told, heard + [line], log, high, CutsThere())
      ensures if old(cursor) < old(high) then
                text == None && told == old(told) && fruitlessReconnects == old(fruitlessReconnects)
              else text.Some? && told == old(told) + [line]
      ensures text.Some? ==> IsNext(line, text.value, log, old(high), high, CutsThere())
      ensures text == None ==> high == old(high)
    {
      hide Ordered, Serves, NoneHeldFrom, HasRead, StreamOk, TraceOk, ToldOk, Cluster.AllLines,
        LogReadPosition.AfterLine;
      var (after, unread) := position.AfterLine(line.line.stamp);
      ghost var h, f := PodLineShown(stream.lines, cluster, log, stretch, Last(), position, high, first, cursor);
      if unread {
        NewLineTraced(trace, fruitlessReconnects, cluster, history, drained, high,
                      |history| - if stream.Following? || drained then 1 else 0);
        fruitlessReconnects, trace := 0, trace + [NewLine];
        NewLineTold(told, heard, log, high, CutsThere(), line);
        told := told + [line];
      } else {
        ReplayHeard(told, heard, log, high, CutsThere(), line);
      }
      position := after;
      high, first, cursor := h, f, cursor + 1;
      text := if unread then Some(line.line.text) else None;
    }

    /// A line's text, but for one of the pod's that was read before.
    method TextUnlessReplayed(line: PodLine) returns (text: Option<string>)
      requires Valid() && !stream.Ended? && stream.lines != [] && line == stream.lines[0]
      modifies `position, `fruitlessReconnects, `lastUnstampedLine, `trace, `heard, `told, `high, `first, `cursor
      ensures HasRead(log, position, high, first)
      ensures StreamOk(stream.lines[1..], cluster, log, stretch, Last(), position, high, first, cursor)
      ensures TraceOk(trace, fruitlessReconnects, cluster, history, drained, high,
                      |history| - if stream.Following? || drained then 1 else 0)
      ensures old(trace) <= trace && IsLastSaid(lastUnstampedLine, heard)
      ensures heard == old(heard) + [line] && ToldOk(told, heard, log, high, CutsThere())
      ensures if line.OfPod? && old(cursor) < old(high) then text == None && told == old(told)
              else text.Some? && told == old(told) + [line]
      ensures text.Some? ==> IsNext(line, text.value, log, old(high), high, CutsThere())
      ensures text == None ==> high == old(high)
      ensures text == None ==> fruitlessReconnects == old(fruitlessReconnects)
    {
      hide Environment, HasRead, StreamOk, TraceOk, ToldOk, Cluster.AllLines, IsLastSaid;
      OneMoreSaid(lastUnstampedLine, heard, line);
      match line {
        case OfPod(_) =>
          text := PodText(line);
        case OfKubectl(complaint) =>
          ComplaintShown(stream.lines, cluster, log, stretch, Last(), position, high, first, cursor);
          ComplaintTold(told, heard, log, high, CutsThere(), line);
          told := told + [line];
          lastUnstampedLine := Some(complaint);
          text := Some(complaint);
      }
      heard := heard + [line];
    }

    /// Asked of the pod when a follow is over: a running one is followed again while reconnects are left, a finished
    /// one is drained, and a gone one has no more to say.
    method StreamAfterFollowEnded() returns (next: LogStream, held: bool, abandoned: Option<string>)
      modifies `connections, `statusReads
      ensures statusReads == old(statusReads) + 1
      ensures var answer := cluster.connect(old(connections), position.ResumeFrom());
              var spent := old(connections) + 1;
              match cluster.status(old(statusReads))
              case IsRunning =>
                if fruitlessReconnects >= 5 then
                  next == Ended && abandoned == Some(KeptEnding(lastUnstampedLine)) && connections == old(connections)
                else if answer.Ok? then
                  && next == Following(answer.value.lines) && held == answer.value.held
                  && abandoned == None && connections == spent
                else next == Ended && abandoned == Some(answer.why) && connections == spent
              case IsFinished =>
                && abandoned == None && connections == spent
                && next == (if answer.Ok? then Draining(answer.value.lines) else Ended)
              case IsWaitingOrGone => next == Ended && abandoned == None && connections == old(connections)
              case IsUnreadable(reason) => next == Ended && abandoned == Some(reason) && connections == old(connections)
    {
      var status := cluster.status(statusReads);
      statusReads := statusReads + 1;
      next, held, abandoned := Ended, false, None;
      match status {
        case IsRunning =>
          if fruitlessReconnects >= FRUITLESS_RECONNECTS_ALLOWED {
            abandoned := Some(KeptEnding(lastUnstampedLine));
          } else {
            var connection := cluster.connect(connections, position.ResumeFrom());
            connections := connections + 1;
            match connection {
              case Ok(c) => next, held := Following(c.lines), c.held;
              case Err(why) => abandoned := Some(why);
            }
          }
        case IsFinished =>
          var connection := cluster.connect(connections, position.ResumeFrom());
          connections := connections + 1;
          match connection {
            case Ok(c) => next := Draining(c.lines);
            case Err(_) =>
          }
        case IsWaitingOrGone =>
        case IsUnreadable(reason) => abandoned := Some(reason);
      }
    }

    /// A follow has ended, every line of it heard, and nothing is turned to yet.
    ghost predicate BetweenStreams()
      reads this
    {
      && Environment() && history != [] && !drained && abandonedBecause == None
      && HasRead(log, position, high, first)
      && TraceOk(trace, fruitlessReconnects, cluster, history, false, high, |history|)
      && ToldOk(told, heard, log, high, CutsThere()) && AreTextsOf(returned, told)
      && heard == cluster.AllLines(history) && IsLastSaid(lastUnstampedLine, heard)
    }

    /// A follow that lasted resets the count of fruitless reconnects.
    method SettleHold()
      requires Valid() && stream.Following? && stream.lines == []
      modifies `fruitlessReconnects, `trace
      ensures BetweenStreams() && old(trace) <= trace && fruitlessReconnects <= FRUITLESS_RECONNECTS_ALLOWED
      ensures !heldLong ==> fruitlessReconnects == old(fruitlessReconnects)
      ensures heldLong ==> connections <= lastHeld
    {
      hide Ordered, Serves, HasRead, StreamOk, TraceOk, ToldOk, Cluster.AllLines, IsLastSaid;
      HeldSoonerThan(cluster, lastHeld, Last());
      HoldTraced(trace, fruitlessReconnects, cluster, history, high);
      if heldLong {
        fruitlessReconnects, trace := 0, trace + [HeldLong];
      }
      Allowed(trace, fruitlessReconnects, cluster, history, high);
      assert heard + [] == heard;
    }

    /// `EndedFor`, as the last answer gives it.
    ghost predicate HasReasonToEnd(abandoned: Option<string>)
      reads this
    {
      && statusReads > 0 && connections > 0
      && match cluster.status(statusReads - 1)
         case IsRunning =>
           && abandoned.Some?
           && (|| (fruitlessReconnects == 5 && abandoned.value == KeptEnding(lastUnstampedLine))
               || cluster.connect(connections - 1, position.ResumeFrom()) == Err(abandoned.value))
         case IsFinished => abandoned == None && cluster.connect(connections - 1, position.ResumeFrom()).Err?
         case IsWaitingOrGone => abandoned == None
         case IsUnreadable(reason) => abandoned == Some(reason)
    }

    method End(abandoned: Option<string>)
      requires BetweenStreams() && HasReasonToEnd(abandoned)
      modifies `stream, `position, `abandonedBecause
      ensures Valid() && stream == Ended
    {
      hide Environment, HasRead, StreamOk, TraceOk, ToldOk, Cluster.AllLines, LogReadPosition.Resumed,
        LogReadPosition.ResumeFrom, IsLastSaid;
      ResumedReads(log, position, high, first);
      assert heard + [] == heard;
      stream, position, abandonedBecause := Ended, position.Resumed(), abandoned;
    }

    /// The connection asked for is followed, or drained.
    method TurnTo(next: LogStream, held: bool, ghost asked: Asked)
      requires BetweenStreams() && !next.Ended?
      requires asked == (|history|, position.ResumeFrom()) && connections == |history| + 1
      requires cluster.connect(asked.0, asked.1).Ok? && cluster.connect(asked.0, asked.1).value.lines == next.lines
      requires next.Following? ==>
                 && fruitlessReconnects < FRUITLESS_RECONNECTS_ALLOWED
                 && cluster.connect(asked.0, asked.1).value.held == held
      requires next.Draining? ==> statusReads > 0 && cluster.status(statusReads - 1) == IsFinished
      modifies `stream, `position, `fruitlessReconnects, `heldLong, `trace, `history, `cursor, `drained
      ensures Valid() && stream == next && old(trace) <= trace
      ensures next.Following? ==> fruitlessReconnects == old(fruitlessReconnects) + 1
    {
      hide Ordered, Serves, NoneHeldFrom, HasRead, StreamOk, TraceOk, ToldOk, Cluster.AllLines,
        LogReadPosition.Resumed, LogReadPosition.ResumeFrom, IsLastSaid;
      hide Cuts, AreTextsOf, KeptEnding, Count, HeldCount, Trailing, NeverMoreThanAllowed;
      AskedMore(trace, fruitlessReconnects, cluster, history, asked, high);
      CutsGrow(cluster, log, stretch, history, asked);
      ToldStays(told, heard, log, high, CutsThere(), Cuts(cluster, log, stretch, history + [asked]));
      StreamStarts(cluster, log, stretch, asked, position, high, first);
      history, cursor := history + [asked], stretch(asked.0, asked.1).0;
      stream, position := next, position.Resumed();
      if next.Following? {
        fruitlessReconnects, trace, heldLong := fruitlessReconnects + 1, trace + [Reconnected], held;
      } else {
        drained := true;
      }
    }

    /// Turn to what there is to read once a follow has ended.
    method Reconnect()
      requires Valid() && stream.Following? && stream.lines == []
      modifies this
      ensures Valid() && old(trace) <= trace && told == old(told) && returned == old(returned) && high == old(high)
      ensures || KindsLeft() < old(KindsLeft())
              || (KindsLeft() == old(KindsLeft()) && HoldsLeft() < old(HoldsLeft()))
              || (&& KindsLeft() == old(KindsLeft()) && HoldsLeft() == old(HoldsLeft())
                  && fruitlessReconnects > old(fruitlessReconnects))
    {
      hide Environment, HasRead, StreamOk, TraceOk, ToldOk, HeldCount, Trailing, Cluster.AllLines,
        LogReadPosition.Resumed, LogReadPosition.ResumeFrom, IsLastSaid;
      hide KeptEnding, Cuts, AreTextsOf;
      SettleHold();
      ghost var asked: Asked := (connections, position.ResumeFrom());
      var next, held, abandoned := StreamAfterFollowEnded();
      if next.Ended? {
        End(abandoned);
      } else {
        TurnTo(next, held, asked);
      }
    }

    /// One line off the stream.
    method TakeLine() returns (text: Option<string>)
      requires Valid() && !stream.Ended? && stream.lines != []
      modifies this
      ensures Valid() && old(trace) <= trace
      ensures connections == old(connections) && KindsLeft() == old(KindsLeft()) && |LinesLeft()| < |old(LinesLeft())|
      ensures text == None ==>
                && told == old(told) && returned == old(returned) && high == old(high)
                && fruitlessReconnects == old(fruitlessReconnects)
      ensures text.Some? ==>
                && told == old(told) + [old(stream.lines)[0]] && returned == old(returned) + [text.value]
                && IsNext(old(stream.lines)[0], text.value, log, old(high), high, CutsThere())
    {
      hide Environment, HasRead, StreamOk, TraceOk, ToldOk, Cluster.AllLines, AreTextsOf, IsNext, Cuts, EndedFor,
        IsLastSaid, Trailing, HasShown, NeverMoreThanAllowed, Count, HeldCount, KeptEnding, IsTextOf, ReadsAs;
      ghost var before := heard;
      var line := stream.lines[0];
      text := TextUnlessReplayed(line);
      assert before + stream.lines == heard + stream.lines[1..];
      OneMoreReturned(returned, old(told), line, text, log, old(high), high, CutsThere());
      stream := if stream.Following? then Following(stream.lines[1..]) else Draining(stream.lines[1..]);
      if text.Some? {
        returned := returned + [text.value];
      }
    }

    /// The drain has been read to its end.
    method EndDrain()
      requires Valid() && stream.Draining? && stream.lines == []
      modifies `stream
      ensures Valid() && stream == Ended && heard == cluster.AllLines(history)
    {
      hide Environment, HasRead, StreamOk, TraceOk, ToldOk, Cluster.AllLines, IsLastSaid;
      DrainIsRead(cluster, log, stretch, Last(), position, high, first, cursor);
      assert heard + [] == heard;
      stream := Ended;
    }

    /// The pod's next unread line, or one of `kubectl`'s own; `None` at the end,
    /// for the reason `EndedFor` gives. It ends whatever the cluster answers,
    /// once its connections no longer hold.
    method NextLine() returns (line: Option<string>)
      requires Valid()
      modifies this
      ensures Valid() && old(trace) <= trace && fruitlessReconnects <= FRUITLESS_RECONNECTS_ALLOWED
      ensures fruitlessReconnects <= 5
      ensures match line
              case Some(text) =>
                && |told| == |old(told)| + 1 && told[..|old(told)|] == old(told)
                && returned == old(returned) + [text]
                && IsNext(told[|old(told)|], text, log, old(high), high, CutsThere())
              case None =>
                && told == old(told) && returned == old(returned) && high == old(high)
                && stream.Ended? && EndedFor() && heard == cluster.AllLines(history)
    {
      hide Valid, EndedFor, Cluster.AllLines, IsNext;
      StaysAllowed();
      while true
        invariant Valid() && old(trace) <= trace && told == old(told) && returned == old(returned) && high == old(high)
        invariant fruitlessReconnects <= FRUITLESS_RECONNECTS_ALLOWED
        decreases KindsLeft(), HoldsLeft(), FRUITLESS_RECONNECTS_ALLOWED - fruitlessReconnects, |LinesLeft()|
      {
        if stream.Ended? {
          AllIsHeard();
          return None;
        }
        if stream.lines != [] {
          line := TakeLine();
          StaysAllowed();
          if line.Some? {
            return;
          }
        } else if stream.Draining? {
          EndDrain();
          AllIsHeard();
          return None;
        } else {
          Reconnect();
          StaysAllowed();
        }
      }
    }

    lemma AllIsHeard()
      requires Valid() && stream.Ended?
      ensures EndedFor() && heard == cluster.AllLines(history)
    {
      assert heard + [] == heard;
    }

    /// A drain that showed the pod's log to its end leaves no line of it unread
    /// and none of `kubectl`'s own untold: of the strings returned, those at `at`
    /// are the log, each short only if a connection ended inside that line, and
    /// the rest what `kubectl` said.
    lemma ADrainedLogIsWhole() returns (at: seq<nat>, rest: seq<nat>)
      requires Valid() && stream.Ended? && drained && stretch(Last().0, Last().1).1 == |log|
      ensures AreTheLog(returned, at, log, CutsThere())
      ensures AreStrings(returned, rest, OfKubectlItself(cluster.AllLines(history)))
      ensures forall i :: 0 <= i < |returned| ==> (i in at <==> i !in rest)
      ensures CutsThere() == {} ==> forall i :: 0 <= i < |log| ==> returned[at[i]] == log[i].text
    {
      hide Environment, HasRead, TraceOk, Cluster.AllLines, OfThePod, OfKubectlItself, EndedFor, Cuts;
      AllIsHeard();
      assert high == |log| && log[..high] == log;
      at, rest := LinesByPosition(told);
      ReturnedByPosition(returned, told, at, rest, log, CutsThere());
    }

    /// The reconnects traced are the connections there have been.
    lemma ReconnectsAreConnections()
      requires Valid() && !stream.Ended?
      ensures connections == 1 + Count(trace, Reconnected) + if stream.Draining? then 1 else 0
      ensures NeverMoreThanAllowed(trace) && Count(trace, NewLine) == |OfThePod(told)|
    {
      hide Environment, HasRead, Cluster.AllLines, OfThePod, Count, HeldCount, NeverMoreThanAllowed;
    }

    lemma StaysAllowed()
      requires Valid()
      ensures fruitlessReconnects <= FRUITLESS_RECONNECTS_ALLOWED
    {
    }
  }

  /// The strings at these positions are the log's lines.
  ghost predicate AreTheLog(returned: seq<string>, at: seq<nat>, log: seq<Stamped>, cuts: set<nat>) {
    && |at| == |log| && Ascends(at)
    && forall i :: 0 <= i < |at| ==>
                     && at[i] < |returned| && returned[at[i]] <= log[i].text
                     && (returned[at[i]] != log[i].text ==> i + 1 in cuts)
  }

  ghost predicate AreStrings(returned: seq<string>, at: seq<nat>, strings: seq<string>) {
    && |at| == |strings| && Ascends(at)
    && forall i :: 0 <= i < |at| ==> at[i] < |returned| && returned[at[i]] == strings[i]
  }

  /// `read` are the pod's lines among `lines`, at `pods`, and `said` the rest.
  ghost predicate AreSorted(
      lines: seq<PodLine>, pods: seq<nat>, read: seq<Stamped>, kubectls: seq<nat>, said: seq<string>)
  {
    && Ascends(pods) && Ascends(kubectls) && |pods| == |read| && |kubectls| == |said|
    && (forall i :: 0 <= i < |pods| ==> pods[i] < |lines| && lines[pods[i]] == OfPod(read[i]))
    && (forall i :: 0 <= i < |kubectls| ==> kubectls[i] < |lines| && lines[kubectls[i]] == OfKubectl(said[i]))
    && (forall i :: 0 <= i < |lines| ==> (i in pods <==> i !in kubectls))
  }

  lemma OneMoreSorted(
      lines: seq<PodLine>, line: PodLine, pods: seq<nat>, read: seq<Stamped>, kubectls: seq<nat>, said: seq<string>)
    requires AreSorted(lines, pods, read, kubectls, said)
    ensures line.OfPod? ==> AreSorted(lines + [line], pods + [|lines|], read + [line.line], kubectls, said)
    ensures line.OfKubectl? ==> AreSorted(lines + [line], pods, read, kubectls + [|lines|], said + [line.text])
  {
    assert forall i :: 0 <= i < |lines| ==> (lines + [line])[i] == lines[i];
    assert forall i :: i in pods ==> i < |lines|;
    assert forall i :: i in kubectls ==> i < |lines|;
  }

  lemma NoneSorted()
    ensures AreSorted([], [], [], [], [])
  {
  }

  lemma {:induction false} LinesByPosition(lines: seq<PodLine>) returns (pods: seq<nat>, kubectls: seq<nat>)
    ensures AreSorted(lines, pods, OfThePod(lines), kubectls, OfKubectlItself(lines))
  {
    pods, kubectls := [], [];
    if lines != [] {
      hide OfThePod, OfKubectlItself, AreSorted;
      var n := |lines| - 1;
      var before, last := lines[..n], lines[n];
      pods, kubectls := LinesByPosition(before);
      assert before + [last] == lines;
      OneMoreSorted(before, last, pods, OfThePod(before), kubectls, OfKubectlItself(before));
      OneMoreOfThePod(before, last);
      OneMoreOfKubectl(before, last);
      assert OfThePod(before) + [] == OfThePod(before) && OfKubectlItself(before) + [] == OfKubectlItself(before);
      if last.OfPod? {
        pods := pods + [n];
      } else {
        kubectls := kubectls + [n];
      }
    } else {
      NoneSorted();
    }
  }

  lemma ReturnedByPosition(
      returned: seq<string>, told: seq<PodLine>, at: seq<nat>, rest: seq<nat>, log: seq<Stamped>, cuts: set<nat>)
    requires AreTextsOf(returned, told) && AreRead(OfThePod(told), log, cuts)
    requires AreSorted(told, at, OfThePod(told), rest, OfKubectlItself(told))
    ensures AreTheLog(returned, at, log, cuts) && AreStrings(returned, rest, OfKubectlItself(told))
    ensures forall i :: 0 <= i < |returned| ==> (i in at <==> i !in rest)
    ensures cuts == {} ==> forall i :: 0 <= i < |log| ==> returned[at[i]] == log[i].text
  {
    hide OfThePod, OfKubectlItself;
    forall i | 0 <= i < |at| ensures IsTextOf(returned[at[i]], told[at[i]]) {
    }
    forall i | 0 <= i < |rest| ensures IsTextOf(returned[rest[i]], told[rest[i]]) {
    }
  }

  /// A cut is where some connection ended inside a line.
  lemma {:induction false} CutsAreWhereStreamsEnded(
      cluster: Cluster, log: seq<Stamped>, stretch: Stretches, history: seq<Asked>, i: nat)
    ensures i in Cuts(cluster, log, stretch, history) <==>
              exists k :: 0 <= k < |history| && EndedInside(cluster, log, stretch, history[k])
                          && stretch(history[k].0, history[k].1).1 == i
  {
    if history != [] {
      hide EndedInside;
      var n := |history| - 1;
      CutsAreWhereStreamsEnded(cluster, log, stretch, history[..n], i);
      if i in Cuts(cluster, log, stretch, history[..n]) {
        var k :| 0 <= k < n && EndedInside(cluster, log, stretch, history[..n][k])
          && stretch(history[..n][k].0, history[..n][k].1).1 == i;
        assert history[k] == history[..n][k];
      }
      if k :| 0 <= k < n && EndedInside(cluster, log, stretch, history[k])
              && stretch(history[k].0, history[k].1).1 == i {
        assert history[..n][k] == history[k];
      }
    }
  }

  /// Before the first line of the first connection.
  lemma NothingYet(cluster: Cluster, log: seq<Stamped>, stretch: Stretches)
    requires Serves(cluster, log, stretch) && cluster.connect(0, None).Ok?
    ensures HasRead(log, UNREAD, 0, 0) && ToldOk([], [], log, 0, Cuts(cluster, log, stretch, [(0, None)]))
    ensures TraceOk([], 0, cluster, [(0, None)], false, 0, 0)
    ensures StreamOk(cluster.connect(0, None).value.lines, cluster, log, stretch, (0, None), UNREAD, 0, 0, 0)
    ensures cluster.AllLines([(0, None)]) == cluster.connect(0, None).value.lines
  {
    hide Cuts;
    var asked: Asked := (0, None);
    assert [asked][..0] == [] && log[..0] == [];
    assert ShowsStretch(cluster.connect(0, None).value.lines, log, None, stretch(0, None));
    assert [] + cluster.LinesOf(asked) == cluster.LinesOf(asked);
  }

  /// Every line of the drain shown is a line read.
  lemma DrainIsRead(
      cluster: Cluster, log: seq<Stamped>, stretch: Stretches, asked: Asked,
      position: LogReadPosition, high: nat, first: nat, cursor: nat)
    requires StreamOk([], cluster, log, stretch, asked, position, high, first, cursor)
    ensures cluster.connect(asked.0, asked.1).Ok? && stretch(asked.0, asked.1).1 <= high
  {
  }

  lemma PodLineShown(
      lines: seq<PodLine>, cluster: Cluster, log: seq<Stamped>, stretch: Stretches, asked: Asked,
      position: LogReadPosition, high: nat, first: nat, cursor: nat) returns (high': nat, first': nat)
    requires Ordered(log) && HasRead(log, position, high, first) && lines != [] && lines[0].OfPod?
    requires StreamOk(lines, cluster, log, stretch, asked, position, high, first, cursor)
    ensures var (position', unread) := position.AfterLine(lines[0].line.stamp);
            && unread == (cursor == high) && cursor <= high && high' == high + (if unread then 1 else 0)
            && (unread ==>
                  && high < |log| && lines[0].line.stamp == log[high].stamp && lines[0].line.text <= log[high].text
                  && (lines[0].line != log[high] ==>
                        EndedInside(cluster, log, stretch, asked) && high + 1 == stretch(asked.0, asked.1).1))
            && HasRead(log, position', high', first')
            && StreamOk(lines[1..], cluster, log, stretch, asked, position', high', first', cursor + 1)
  {
    hide Ordered, HasRead, OfThePod, LogReadPosition.AfterLine;
    StretchHead(lines, log, cursor, stretch(asked.0, asked.1).1);
    high', first' := LineIsReadOnce(log, position, high, first, cursor);
  }

  lemma ComplaintShown(
      lines: seq<PodLine>, cluster: Cluster, log: seq<Stamped>, stretch: Stretches, asked: Asked,
      position: LogReadPosition, high: nat, first: nat, cursor: nat)
    requires StreamOk(lines, cluster, log, stretch, asked, position, high, first, cursor)
    requires lines != [] && lines[0].OfKubectl?
    ensures StreamOk(lines[1..], cluster, log, stretch, asked, position, high, first, cursor)
  {
    StretchSkips(lines);
  }

  lemma ResumedReads(log: seq<Stamped>, position: LogReadPosition, high: nat, first: nat)
    requires HasRead(log, position, high, first)
    ensures HasRead(log, position.Resumed(), high, first) && position.Resumed().ResumeFrom() == position.ResumeFrom()
  {
  }

  lemma StreamStarts(
      cluster: Cluster, log: seq<Stamped>, stretch: Stretches, asked: Asked,
      position: LogReadPosition, high: nat, first: nat)
    requires Ordered(log) && Serves(cluster, log, stretch) && HasRead(log, position, high, first)
    requires cluster.connect(asked.0, asked.1).Ok? && asked.1 == position.ResumeFrom()
    ensures HasRead(log, position.Resumed(), high, first)
    ensures StreamOk(cluster.connect(asked.0, asked.1).value.lines, cluster, log, stretch, asked,
                     position.Resumed(), high, first, stretch(asked.0, asked.1).0)
  {
    hide Ordered, HasRead, HasShown, OfThePod, LogReadPosition.Resumed, LogReadPosition.ResumeFrom;
    StretchThere(cluster, log, stretch, asked);
    RestartShows(log, position, high, first, stretch(asked.0, asked.1).0);
    ShownWithinRead(position.Resumed(), high, first, stretch(asked.0, asked.1).0);
  }

  lemma ShownWithinRead(p: LogReadPosition, high: nat, first: nat, cursor: nat)
    requires HasShown(p, high, first, cursor)
    ensures cursor <= high
  {
  }

  lemma CountOneMore(trace: seq<Happening>, last: Happening)
    ensures forall kind :: Count(trace + [last], kind) == Count(trace, kind) + if kind == last then 1 else 0
  {
    assert (trace + [last])[..|trace|] == trace;
  }

  lemma NewLineTraced(
      trace: seq<Happening>, fruitless: nat, cluster: Cluster, history: seq<Asked>, draining: bool,
      high: nat, ended: nat)
    requires TraceOk(trace, fruitless, cluster, history, draining, high, ended)
    ensures TraceOk(trace + [NewLine], 0, cluster, history, draining, high + 1, ended)
  {
    hide Count, Trailing, NeverMoreThanAllowed, HeldCount;
    TraceGrows(trace, NewLine);
    CountOneMore(trace, NewLine);
  }

  /// The last connection has ended, and is counted if it held.
  lemma HoldTraced(trace: seq<Happening>, fruitless: nat, cluster: Cluster, history: seq<Asked>, high: nat)
    requires history != [] && TraceOk(trace, fruitless, cluster, history, false, high, |history| - 1)
    ensures var last := cluster.connect(history[|history| - 1].0, history[|history| - 1].1);
            if last.Ok? && last.value.held then TraceOk(trace + [HeldLong], 0, cluster, history, false, high, |history|)
            else TraceOk(trace, fruitless, cluster, history, false, high, |history|)
  {
    hide Count, Trailing, NeverMoreThanAllowed;
    TraceGrows(trace, HeldLong);
    CountOneMore(trace, HeldLong);
    assert history[..|history|] == history;
  }

  lemma CutsGrow(cluster: Cluster, log: seq<Stamped>, stretch: Stretches, history: seq<Asked>, asked: Asked)
    ensures Cuts(cluster, log, stretch, history) <= Cuts(cluster, log, stretch, history + [asked])
  {
    assert (history + [asked])[..|history|] == history;
  }

  lemma ToldStays(
      told: seq<PodLine>, heard: seq<PodLine>, log: seq<Stamped>, high: nat, cuts: set<nat>, cuts': set<nat>)
    requires ToldOk(told, heard, log, high, cuts) && cuts <= cuts'
    ensures ToldOk(told, heard, log, high, cuts')
  {
  }

  lemma Allowed(trace: seq<Happening>, fruitless: nat, cluster: Cluster, history: seq<Asked>, high: nat)
    requires TraceOk(trace, fruitless, cluster, history, false, high, |history|)
    ensures fruitless <= FRUITLESS_RECONNECTS_ALLOWED
  {
  }

  lemma AskedMore(
      trace: seq<Happening>, fruitless: nat, cluster: Cluster, history: seq<Asked>, asked: Asked, high: nat)
    requires TraceOk(trace, fruitless, cluster, history, false, high, |history|)
    ensures fruitless < FRUITLESS_RECONNECTS_ALLOWED ==>
              TraceOk(trace + [Reconnected], fruitless + 1, cluster, history + [asked], false, high, |history|)
    ensures TraceOk(trace, fruitless, cluster, history + [asked], true, high, |history|)
    ensures cluster.AllLines(history + [asked]) == cluster.AllLines(history) + cluster.LinesOf(asked)
  {
    hide Count, Trailing, NeverMoreThanAllowed, HeldCount;
    if fruitless < FRUITLESS_RECONNECTS_ALLOWED {
      TraceGrows(trace, Reconnected);
      CountOneMore(trace, Reconnected);
    }
    assert (history + [asked])[..|history|] == history == history[..|history|];
  }

  lemma StretchThere(cluster: Cluster, log: seq<Stamped>, stretch: Stretches, asked: Asked)
    requires Serves(cluster, log, stretch) && cluster.connect(asked.0, asked.1).Ok?
    ensures ShowsStretch(cluster.connect(asked.0, asked.1).value.lines, log, asked.1, stretch(asked.0, asked.1))
  {
  }

  lemma HeldSoonerThan(cluster: Cluster, from: nat, asked: Asked)
    requires NoneHeldFrom(cluster, from)
    ensures var last := cluster.connect(asked.0, asked.1); last.Ok? && last.value.held ==> asked.0 < from
  {
  }

  lemma {:induction false} OneMoreOfThePod(lines: seq<PodLine>, line: PodLine)
    ensures OfThePod(lines + [line]) == OfThePod(lines) + if line.OfPod? then [line.line] else []
  {
    if lines != [] {
      assert (lines + [line])[1..] == lines[1..] + [line];
      OneMoreOfThePod(lines[1..], line);
    } else {
      assert ([] + [line])[1..] == [];
    }
  }

  lemma OneMoreOfKubectl(lines: seq<PodLine>, line: PodLine)
    ensures OfKubectlItself(lines + [line]) == OfKubectlItself(lines) + if line.OfKubectl? then [line.text] else []
  {
    assert (lines + [line])[..|lines|] == lines;
  }

  lemma NewLineTold(
      told: seq<PodLine>, heard: seq<PodLine>, log: seq<Stamped>, high: nat, cuts: set<nat>, line: PodLine)
    requires ToldOk(told, heard, log, high, cuts) && high < |log| && line.OfPod?
    requires line.line.stamp == log[high].stamp && line.line.text <= log[high].text
    requires line.line != log[high] ==> high + 1 in cuts
    ensures ToldOk(told + [line], heard + [line], log, high + 1, cuts)
  {
    hide OfThePod, OfKubectlItself;
    OneMoreOfThePod(told, line);
    OneMoreOfKubectl(told, line);
    OneMoreOfKubectl(heard, line);
  }

  lemma ReplayHeard(
      told: seq<PodLine>, heard: seq<PodLine>, log: seq<Stamped>, high: nat, cuts: set<nat>, line: PodLine)
    requires ToldOk(told, heard, log, high, cuts) && line.OfPod?
    ensures ToldOk(told, heard + [line], log, high, cuts)
  {
    OneMoreOfKubectl(heard, line);
  }

  lemma ComplaintTold(
      told: seq<PodLine>, heard: seq<PodLine>, log: seq<Stamped>, high: nat, cuts: set<nat>, line: PodLine)
    requires ToldOk(told, heard, log, high, cuts) && line.OfKubectl?
    ensures ToldOk(told + [line], heard + [line], log, high, cuts)
  {
    hide OfThePod, OfKubectlItself;
    OneMoreOfThePod(told, line);
    OneMoreOfKubectl(told, line);
    OneMoreOfKubectl(heard, line);
  }

  lemma StretchHead(lines: seq<PodLine>, log: seq<Stamped>, cursor: nat, end: nat)
    requires cursor <= end <= |log| && ReadsAs(OfThePod(lines), log[cursor..end])
    requires lines != [] && lines[0].OfPod?
    ensures cursor < end && lines[0].line.stamp == log[cursor].stamp && lines[0].line.text <= log[cursor].text
    ensures lines[0].line != log[cursor] ==> cursor + 1 == end && OfThePod(lines) != log[cursor..end]
    ensures ReadsAs(OfThePod(lines[1..]), log[cursor + 1..end])
    ensures OfThePod(lines) == log[cursor..end] ==> OfThePod(lines[1..]) == log[cursor + 1..end]
  {
    hide OfThePod;
    HeadOfThePod(lines);
    assert log[cursor..end] != [];
    assert log[cursor..end] == [log[cursor]] + log[cursor + 1..end];
    ReadsAsOnward(lines[0].line, OfThePod(lines[1..]), log[cursor], log[cursor + 1..end]);
  }

  lemma ReadsAsOnward(line: Stamped, rest: seq<Stamped>, first: Stamped, after: seq<Stamped>)
    requires ReadsAs([line] + rest, [first] + after)
    ensures line.stamp == first.stamp && line.text <= first.text && ReadsAs(rest, after)
    ensures line != first ==> after == [] && [line] + rest != [first] + after
    ensures [line] + rest == [first] + after ==> rest == after
  {
    var lines, stretch := [line] + rest, [first] + after;
    assert lines[0] == line && stretch[0] == first && |lines| == |stretch|;
    assert ReadsAs(rest, after) by {
      forall i | 0 <= i < |rest| ensures rest[i] == lines[i + 1] && after[i] == stretch[i + 1] {
      }
    }
    SameTails(line, rest, first, after);
  }

  lemma SameTails(line: Stamped, rest: seq<Stamped>, first: Stamped, after: seq<Stamped>)
    ensures [line] + rest == [first] + after <==> line == first && rest == after
  {
    if [line] + rest == [first] + after {
      assert ([line] + rest)[0] == line && ([line] + rest)[1..] == rest;
    }
  }

  lemma HeadOfThePod(lines: seq<PodLine>)
    requires lines != [] && lines[0].OfPod?
    ensures OfThePod(lines) == [lines[0].line] + OfThePod(lines[1..])
  {
  }

  lemma StretchSkips(lines: seq<PodLine>)
    requires lines != [] && lines[0].OfKubectl?
    ensures OfThePod(lines[1..]) == OfThePod(lines)
  {
  }

  lemma TraceGrows(trace: seq<Happening>, happening: Happening)
    requires NeverMoreThanAllowed(trace)
    requires happening == Reconnected ==> Trailing(trace) < FRUITLESS_RECONNECTS_ALLOWED
    ensures NeverMoreThanAllowed(trace + [happening])
    ensures Trailing(trace + [happening]) == if happening == Reconnected then Trailing(trace) + 1 else 0
  {
    var longer := trace + [happening];
    assert longer[..|trace|] == trace && longer[..|longer|] == longer;
    assert trace[..|trace|] == trace;
    forall n | 0 <= n <= |longer| ensures Trailing(longer[..n]) <= FRUITLESS_RECONNECTS_ALLOWED {
      if n <= |trace| {
        assert longer[..n] == trace[..n];
      }
    }
  }
}
