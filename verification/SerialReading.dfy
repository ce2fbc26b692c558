/** Reading the build result from a stream: which verdicts are final, and when the
    outcome does not depend on how the stream was cut into chunks.
 */
module SerialReading {
  import opened Wrappers
  import opened Bytes
  import opened SerialResult
  import Base64

  // ---- Bytes that arrive later do not disturb what is complete --------------

  /** A newline or the closing `D` of the log frame: bytes no marker contains. */
  predicate Anchor(b: Byte) {
    b == 10 || b == 68
  }

  lemma MarkerHasNoAnchor(i: nat)
    requires i < |MARKER|
    ensures !Anchor(MARKER[i])
  {
  }

  /** A marker completed only by later bytes starts after every anchor already there. */
  lemma StraddleStartsAfter(data: seq<Byte>, more: seq<Byte>, n: nat, q: nat)
    requires At(data + more, MARKER, n) && n + |MARKER| > |data|
    requires q < |data| && Anchor(data[q])
    ensures q < n
  {
    if n <= q {
      var all := data + more;
      assert all[n..n + |MARKER|][q - n] == all[q] == data[q];
      MarkerHasNoAnchor(q - n);
    }
  }

  lemma MarkerStays(data: seq<Byte>, more: seq<Byte>, idx: nat)
    requires At(data, MARKER, idx)
    ensures At(data + more, MARKER, idx)
  {
    AtStable(data, data + more, MARKER, idx, |data|);
  }

  /** The segment of a marker may shrink when a later marker completes, but never past an
      anchor it already held. */
  lemma SegmentKeepsAnchor(data: seq<Byte>, more: seq<Byte>, idx: nat, q: nat)
    requires At(data, MARKER, idx)
    requires idx + |MARKER| <= q < SegmentEnd(data, idx) && Anchor(data[q])
    ensures At(data + more, MARKER, idx) && q < SegmentEnd(data + more, idx)
  {
    var all := data + more;
    MarkerStays(data, more, idx);
    var next := Find(data, MARKER, idx + |MARKER|);
    if next.Some? {
      FindStable(data, all, MARKER, idx + |MARKER|);
    } else {
      var next' := Find(all, MARKER, idx + |MARKER|);
      if next'.Some? {
        var n := next'.value;
        if n + |MARKER| <= |data| {
          AtStable(data, all, MARKER, n, |data|);
        }
        StraddleStartsAfter(data, more, n, q);
      }
    }
  }

  // ---- Complete lines and complete frames ----------------------------------

  /** The newline ending the line of the marker that starts `segment`, as an offset in it. */
  function LineEnd(segment: seq<Byte>): (r: Option<nat>)
    requires |MARKER| <= |segment|
    ensures r.Some? ==> |MARKER| <= r.value < |segment| && segment[r.value] == 10
  {
    match Find(segment[|MARKER|..], NEWLINE, 0)
    case None => None
    case Some(nl) => assert segment[|MARKER|..][nl..nl + 1] == NEWLINE; Some(|MARKER| + nl)
  }

  lemma LineEndStable(a: seq<Byte>, b: seq<Byte>)
    requires |MARKER| <= |a| && LineEnd(a).Some? && SharePrefix(a, b, LineEnd(a).value + 1)
    ensures |MARKER| <= |b| && LineEnd(b) == LineEnd(a)
    ensures var nl := LineEnd(a).value - |MARKER|; a[|MARKER|..][..nl] == b[|MARKER|..][..nl]
  {
    FindStable(a[|MARKER|..], b[|MARKER|..], NEWLINE, 0);
  }

  /** The end of the complete log frame. */
  function FrameEnd(segment: seq<Byte>): (end: nat)
    requires FrameContent(segment).Some?
    ensures 0 < end <= |segment| && segment[end - 1] == 68
  {
    var begin := Find(segment, LOG_BEGIN, 0).value;
    var start := Find(segment, NEWLINE, begin).value;
    var end := Find(segment, LOG_END, start).value;
    assert segment[end..end + |LOG_END|][|LOG_END| - 1] == 68;
    end + |LOG_END|
  }

  /** A byte foreign to `sub` cannot lie inside an occurrence of it. */
  lemma ForeignByteOutside(a: seq<Byte>, sub: seq<Byte>, i: nat, q: nat)
    requires At(a, sub, i) && q < |a| && forall k | 0 <= k < |sub| :: sub[k] != a[q]
    ensures q < i || i + |sub| <= q
  {
    if i <= q {
      assert a[q] == a[i..][q - i];
    }
  }

  lemma FrameMarkersHaveNoNewline()
    ensures forall k | 0 <= k < |LOG_BEGIN| :: LOG_BEGIN[k] != 10
    ensures forall k | 0 <= k < |LOG_END| :: LOG_END[k] != 10
  {
  }

  /** The three positions behind a complete frame, in order. */
  lemma FrameParts(a: seq<Byte>) returns (begin: nat, start: nat, end: nat)
    requires FrameContent(a).Some?
    ensures Find(a, LOG_BEGIN, 0) == Some(begin)
    ensures Find(a, NEWLINE, begin) == Some(start)
    ensures Find(a, LOG_END, start) == Some(end)
    ensures begin + |LOG_BEGIN| <= start < end && FrameEnd(a) == end + |LOG_END|
  {
    begin := Find(a, LOG_BEGIN, 0).value;
    start := Find(a, NEWLINE, begin).value;
    end := Find(a, LOG_END, start).value;
    assert a[start..start + 1][0] == 10;
    FrameMarkersHaveNoNewline();
    ForeignByteOutside(a, LOG_BEGIN, begin, start);
    ForeignByteOutside(a, LOG_END, end, start);
  }

  lemma LogStable(a: seq<Byte>, b: seq<Byte>)
    requires FrameContent(a).Some? && SharePrefix(a, b, FrameEnd(a))
    ensures FrameContent(b) == FrameContent(a)
  {
    var begin, start, end := FrameParts(a);
    FramePieces(a, b, begin, start, end);
  }

  lemma FramePieces(a: seq<Byte>, b: seq<Byte>, begin: nat, start: nat, end: nat)
    requires Find(a, LOG_BEGIN, 0) == Some(begin)
    requires Find(a, NEWLINE, begin) == Some(start)
    requires Find(a, LOG_END, start) == Some(end)
    requires begin + |LOG_BEGIN| <= start < end && SharePrefix(a, b, end + |LOG_END|)
    ensures Find(b, LOG_BEGIN, 0) == Some(begin)
    ensures Find(b, NEWLINE, begin) == Some(start)
    ensures Find(b, LOG_END, start) == Some(end)
    ensures Slice(a, start + 1, end) == Slice(b, start + 1, end)
  {
    FindStable(a, b, LOG_BEGIN, 0);
    FindStable(a, b, NEWLINE, begin);
    FindStable(a, b, LOG_END, start);
    assert a[start + 1..end] == b[start + 1..end];
  }

  // ---- Verdicts that no later byte can change -------------------------------

  /** How much of the segment a recognised verdict depends on; it ends with an anchor. */
  function Needed(segment: seq<Byte>): (k: nat)
    requires |MARKER| <= |segment| && LineEnd(segment).Some?
    ensures |MARKER| < k <= |segment| && Anchor(segment[k - 1])
    ensures LineEnd(segment).value < k
    ensures FrameContent(segment).Some? ==> FrameEnd(segment) <= k
  {
    var line := LineEnd(segment).value + 1;
    if FrameContent(segment).Some? && line < FrameEnd(segment) then FrameEnd(segment) else line
  }

  ghost predicate Recognized(j: Judgement) {
    j.Decided? && j.tag != OtherTag
  }

  /** A recognised verdict on a segment stays when the segment changes beyond the part it
      depends on, whether or not the marker is still the last one. */
  lemma JudgeStable(t: Text, a: seq<Byte>, b: seq<Byte>, last: bool, last': bool)
    requires |MARKER| <= |a| && Recognized(Judge(t, a, last, false))
    ensures LineEnd(a).Some?
    ensures SharePrefix(a, b, Needed(a)) ==> Judge(t, b, last', false) == Judge(t, a, last, false)
  {
    assert Slice(a, |MARKER|, |a|) == a[|MARKER|..];
    if SharePrefix(a, b, Needed(a)) {
      assert Slice(b, |MARKER|, |b|) == b[|MARKER|..];
      LineEndStable(a, b);
      if Judge(t, a, last, false).tag == FailTag {
        LogStable(a, b);
      }
    }
  }

  /** What a segment held up to an anchor is still there after more bytes. */
  lemma SegmentsShare(data: seq<Byte>, more: seq<Byte>, idx: nat, k: nat)
    requires At(data, MARKER, idx) && At(data + more, MARKER, idx)
    requires |MARKER| < k <= |Segment(data, idx)| && Anchor(Segment(data, idx)[k - 1])
    ensures SharePrefix(Segment(data, idx), Segment(data + more, idx), k)
  {
    SegmentKeepsAnchor(data, more, idx, idx + k - 1);
  }

  /** A segment closed by a later marker never changes again. */
  lemma ClosedSegmentStays(data: seq<Byte>, more: seq<Byte>, idx: nat)
    requires At(data, MARKER, idx) && !IsLast(data, idx)
    ensures At(data + more, MARKER, idx) && !IsLast(data + more, idx)
    ensures Segment(data + more, idx) == Segment(data, idx)
  {
    MarkerStays(data, more, idx);
    FindStable(data, data + more, MARKER, idx + |MARKER|);
  }

  /** What more bytes leave of the judgement on one marker: a recognised verdict, and
      everything about a marker that another one already follows. */
  ghost predicate MarkerSettled(judge: Judging, data: seq<Byte>, more: seq<Byte>, idx: nat) {
    && At(data, MARKER, idx) && At(data + more, MARKER, idx)
    && (Recognized(judge(Segment(data, idx), IsLast(data, idx))) ==>
          judge(Segment(data + more, idx), IsLast(data + more, idx)) ==
          judge(Segment(data, idx), IsLast(data, idx)))
    && (!IsLast(data, idx) ==> !IsLast(data + more, idx) && Segment(data + more, idx) == Segment(data, idx))
  }

  lemma MarkersSettle(t: Text, data: seq<Byte>, more: seq<Byte>, idx: nat)
    requires At(data, MARKER, idx)
    ensures MarkerSettled(Judges(t, false), data, more, idx)
  {
    MarkerStays(data, more, idx);
    if !IsLast(data, idx) {
      ClosedSegmentStays(data, more, idx);
    }
    var a, last := Segment(data, idx), IsLast(data, idx);
    var b, last' := Segment(data + more, idx), IsLast(data + more, idx);
    if Recognized(Judge(t, a, last, false)) {
      RecognizedStays(t, data, more, idx, a, b, last, last');
    }
  }

  lemma RecognizedStays(t: Text, data: seq<Byte>, more: seq<Byte>, idx: nat,
                        a: seq<Byte>, b: seq<Byte>, last: bool, last': bool)
    requires At(data, MARKER, idx) && At(data + more, MARKER, idx)
    requires a == Segment(data, idx) && b == Segment(data + more, idx)
    requires Recognized(Judge(t, a, last, false))
    ensures Judge(t, b, last', false) == Judge(t, a, last, false)
  {
    JudgeStable(t, a, b, last, last');
    SegmentsShare(data, more, idx, Needed(a));
  }

  lemma {:induction false} ScanStable(judge: Judging, data: seq<Byte>, more: seq<Byte>, pos: nat)
    requires forall idx: nat {:trigger MarkerSettled(judge, data, more, idx)} ::
               At(data, MARKER, idx) ==> MarkerSettled(judge, data, more, idx)
    requires Scan(judge, data, pos).Some? && Scan(judge, data, pos).value.tag != OtherTag
    ensures Scan(judge, data + more, pos) == Scan(judge, data, pos)
    decreases |data| - pos
  {
    var idx := Find(data, MARKER, pos).value;
    FindStable(data, data + more, MARKER, pos);
    assert MarkerSettled(judge, data, more, idx);
    if judge(Segment(data, idx), IsLast(data, idx)).Skip? {
      ScanStable(judge, data, more, idx + |MARKER|);
      assert !IsLast(data, idx);
    }
  }

  /** A non-final `ok`, or a `fail` with its log frame complete, is unchanged by appending
      any bytes: later bytes never retract a recognised verdict. */
  lemma VerdictStable(t: Text, data: seq<Byte>, more: seq<Byte>)
    requires var hit := Scan(Judges(t, false), data, 0); hit.Some? && hit.value.tag != OtherTag
    ensures Scan(Judges(t, false), data + more, 0) == Scan(Judges(t, false), data, 0)
    ensures Parse(t, data + more, false) == Parse(t, data, false)
  {
    forall idx: nat | At(data, MARKER, idx) ensures MarkerSettled(Judges(t, false), data, more, idx) {
      MarkersSettle(t, data, more, idx);
    }
    ScanStable(Judges(t, false), data, more, 0);
  }

  // ---- The reading loop -----------------------------------------------------

  /** `Failed` is BuildFailedError; `reported` is false when the guest powered off without
      any result. */
  datatype ReadOutcome = Returned | Failed(rc: Option<int>, cmd: Option<string>, log: seq<Byte>, reported: bool)

  function OutcomeOf(r: BuildResult): ReadOutcome {
    if r.ok then Returned else Failed(r.rc, r.cmd, r.log, true)
  }

  /** Best-effort log of a guest that died without a framed result. */
  function FallbackLog(buffer: seq<Byte>): seq<Byte> {
    var decoded := PartialFrame(buffer);
    if decoded != [] then decoded
    else if |buffer| <= FALLBACK_TAIL_BYTES then buffer
    else buffer[|buffer| - FALLBACK_TAIL_BYTES..]
  }

  function PartialFrame(buffer: seq<Byte>): seq<Byte> {
    match Find(buffer, LOG_BEGIN, 0)
    case None => []
    case Some(begin) =>
      match Find(buffer, NEWLINE, begin)
      case None => []
      case Some(start) =>
        var end := match Find(buffer, LOG_END, start) case Some(e) => e case None => |buffer|;
        Base64.DecodeTolerant(Slice(buffer, start + 1, end))
  }

  /** The lenient parse once the stream has closed. */
  function Conclude(t: Text, buffer: seq<Byte>): ReadOutcome {
    match Parse(t, buffer, true)
    case Some(r) => OutcomeOf(r)
    case None => Failed(None, None, FallbackLog(buffer), false)
  }

  /** Read the remaining chunks, parsing after each non-empty one. */
  function ReadFrom(t: Text, buffer: seq<Byte>, chunks: seq<seq<Byte>>): ReadOutcome
    decreases |chunks|
  {
    if chunks == [] then Conclude(t, buffer)
    else if chunks[0] == [] then ReadFrom(t, buffer, chunks[1..])
    else
      var buffer' := buffer + chunks[0];
      match Parse(t, buffer', false)
      case Some(r) => OutcomeOf(r)
      case None => ReadFrom(t, buffer', chunks[1..])
  }

  function Concat(chunks: seq<seq<Byte>>): seq<Byte> {
    if chunks == [] then [] else chunks[0] + Concat(chunks[1..])
  }

  /** The outcome read off the whole stream at once. */
  function Verdict(t: Text, stream: seq<Byte>): ReadOutcome {
    match Parse(t, stream, false)
    case Some(r) => OutcomeOf(r)
    case None => Conclude(t, stream)
  }

  lemma ConcatSnoc(chunks: seq<seq<Byte>>, i: nat)
    requires i < |chunks|
    ensures Concat(chunks[..i + 1]) == Concat(chunks[..i]) + chunks[i]
  {
    if i > 0 {
      assert chunks[..i + 1][1..] == chunks[1..][..i] && chunks[..i][1..] == chunks[1..][..i - 1];
      ConcatSnoc(chunks[1..], i - 1);
    }
  }

  /** None of the first `k` chunks completed a result. */
  ghost predicate Undecided(t: Text, chunks: seq<seq<Byte>>, k: nat) {
    k <= |chunks| &&
    forall j | 0 <= j < k && chunks[j] != [] :: Parse(t, Concat(chunks[..j + 1]), false).None?
  }

  /** The loop of `wait_for_build_result`. `expired[i]` says that the deadline has passed
      once chunk `i` was handled. It times out if and only if the deadline has passed at a chunk
      up to which nothing had been decided; otherwise the outcome is that of the chunks. */
  method WaitForBuildResult(t: Text, chunks: seq<seq<Byte>>, expired: seq<bool>)
    returns (r: Option<ReadOutcome>)
    requires |expired| == |chunks|
    ensures r.Some? ==> r.value == ReadFrom(t, [], chunks)
    ensures r.None? <==> exists i :: 0 <= i < |chunks| && expired[i] && Undecided(t, chunks, i + 1)
  {
    var buffer: seq<Byte> := [];
    for i := 0 to |chunks|
      invariant buffer == Concat(chunks[..i])
      invariant ReadFrom(t, [], chunks) == ReadFrom(t, buffer, chunks[i..])
      invariant Undecided(t, chunks, i) && forall j | 0 <= j < i :: !expired[j]
    {
      ConcatSnoc(chunks, i);
      assert chunks[i..][1..] == chunks[i + 1..];
      var chunk := chunks[i];
      if chunk != [] {
        buffer := buffer + chunk;
        var result := ParseBuildResult(t, buffer, false);
        if result.Some? {
          return Some(OutcomeOf(result.value));
        }
      }
      if expired[i] {
        return None;
      }
    }
    var last := ParseBuildResult(t, buffer, true);
    if last.Some? && last.value.ok {
      return Some(Returned);
    }
    return Some(if last.Some? then Failed(last.value.rc, last.value.cmd, last.value.log, true)
                else Failed(None, None, FallbackLog(buffer), false));
  }

  // ---- Markers in a stream ---------------------------------------------------

  /** The marker has no border, so occurrences never overlap and the scan sees them all. */
  lemma MarkersDoNotOverlap(data: seq<Byte>, i: nat, j: nat)
    requires At(data, MARKER, i) && At(data, MARKER, j) && i < j
    ensures i + |MARKER| <= j
  {
    MarkerBytes(data, i);
    MarkerBytes(data, j);
    assert data[j] == 84 && data[j + 1] == 69;
    assert forall k | i < k < i + |MARKER| - 1 :: data[k] != 84 || data[k + 1] != 69;
    assert data[i + |MARKER| - 1] == 58;
  }

  lemma MarkerBytes(data: seq<Byte>, i: nat)
    requires At(data, MARKER, i)
    ensures forall k | i <= k < i + |MARKER| :: data[k] == MARKER[k - i]
  {
    assert forall k | i <= k < i + |MARKER| :: data[k] == data[i..i + |MARKER|][k - i];
  }

  /** The line of a marker, if its newline came before the next marker. */
  function CompleteLine(data: seq<Byte>, idx: nat): Option<seq<Byte>>
    requires At(data, MARKER, idx)
  {
    match LineEnd(Segment(data, idx))
    case None => None
    case Some(e) => Some(Segment(data, idx)[|MARKER|..e])
  }

  function OtherResult(t: Text, line: seq<Byte>): BuildResult {
    BuildResult(false, None, None, t.unrecognized(Strip(t.decode(line))))
  }

  /** What a `fail` line reports: its code, its command and the decoded frame, if complete. */
  function FailResult(t: Text, line: seq<Byte>, segment: seq<Byte>): BuildResult {
    var text, frame := Strip(t.decode(line)), FrameContent(segment);
    BuildResult(false, t.rc(text), t.cmd(text), if frame.Some? then Base64.DecodeTolerant(frame.value) else [])
  }

  /** The non-final judgement, read off the line and the frame. */
  lemma JudgeByLine(t: Text, a: seq<Byte>, last: bool)
    requires |MARKER| <= |a|
    ensures LineEnd(a).None? ==> Judge(t, a, last, false) == Skip
    ensures LineEnd(a).Some? ==>
              var line := a[|MARKER|..LineEnd(a).value];
              match LineTag(t, line)
              case OkTag => Judge(t, a, last, false) == Decided(OkTag, BuildResult(true, None, None, []))
              case FailTag =>
                if FrameContent(a).Some? then Judge(t, a, last, false) == Decided(FailTag, FailResult(t, line, a))
                else Judge(t, a, last, false) == if last then Wait else Skip
              case OtherTag =>
                Judge(t, a, last, false) == if last then Decided(OtherTag, OtherResult(t, line)) else Skip
  {
    assert Slice(a, |MARKER|, |a|) == a[|MARKER|..];
    if LineEnd(a).Some? {
      assert a[|MARKER|..][..LineEnd(a).value - |MARKER|] == a[|MARKER|..LineEnd(a).value];
    }
  }

  /** A marker that decides the build for good: a complete `ok` line, or a complete `fail`
      line with its frame. */
  ghost predicate Decisive(t: Text, data: seq<Byte>, idx: nat) {
    && At(data, MARKER, idx)
    && CompleteLine(data, idx).Some?
    && (var tag := LineTag(t, CompleteLine(data, idx).value);
        tag == OkTag || (tag == FailTag && FrameContent(Segment(data, idx)).Some?))
  }

  /** A complete marker line with an unrecognised token, before anything decisive. */
  ghost predicate Premature(t: Text, data: seq<Byte>, idx: nat) {
    && At(data, MARKER, idx)
    && CompleteLine(data, idx).Some?
    && LineTag(t, CompleteLine(data, idx).value) == OtherTag
    && forall j: nat | j < idx :: !Decisive(t, data, j)
  }

  // ---- Chunking -----------------------------------------------------------------

  /** A complete line stays as it is when more bytes arrive. */
  lemma CompleteLineStays(data: seq<Byte>, more: seq<Byte>, idx: nat)
    requires At(data, MARKER, idx) && CompleteLine(data, idx).Some?
    ensures At(data + more, MARKER, idx) && CompleteLine(data + more, idx) == CompleteLine(data, idx)
  {
    MarkerStays(data, more, idx);
    var a, b := Segment(data, idx), Segment(data + more, idx);
    var e := LineEnd(a).value;
    SegmentsShare(data, more, idx, e + 1);
    LineEndStable(a, b);
    assert a[|MARKER|..e] == b[|MARKER|..e];
  }

  /** Between one marker and the next nothing can be decisive. */
  lemma NothingBetween(t: Text, data: seq<Byte>, pos: nat, idx: nat)
    requires Find(data, MARKER, pos) == Some(idx) && forall j: nat | j < pos :: !Decisive(t, data, j)
    ensures forall j: nat | j < idx :: !Decisive(t, data, j)
    ensures !Decisive(t, data, idx) ==> forall j: nat | j < idx + |MARKER| :: !Decisive(t, data, j)
  {
    forall j: nat | idx < j < idx + |MARKER| ensures !At(data, MARKER, j) {
      if At(data, MARKER, j) {
        MarkersDoNotOverlap(data, idx, j);
      }
    }
  }

  /** The judgement on one marker of `data`, read off the stream `data + more`. */
  ghost predicate Explained(judge: Judging, t: Text, data: seq<Byte>, more: seq<Byte>, idx: nat) {
    && At(data, MARKER, idx)
    && (var j := judge(Segment(data, idx), IsLast(data, idx));
        if IsLast(data, idx) then
          && (j.Decided? && j.tag == OtherTag <==>
              CompleteLine(data, idx).Some? && LineTag(t, CompleteLine(data, idx).value) == OtherTag)
          && (j.Decided? && j.tag == OtherTag ==> j.result == OtherResult(t, CompleteLine(data, idx).value))
        else
          && (j.Skip? <==> !Decisive(t, data + more, idx))
          && (j.Decided? ==> j.tag != OtherTag) && !j.Wait?)
  }

  ghost predicate AllExplained(judge: Judging, t: Text, data: seq<Byte>, more: seq<Byte>) {
    forall idx: nat {:trigger Explained(judge, t, data, more, idx)} ::
      At(data, MARKER, idx) ==> Explained(judge, t, data, more, idx)
  }

  lemma JudgesExplained(t: Text, data: seq<Byte>, more: seq<Byte>)
    ensures AllExplained(Judges(t, false), t, data, more)
  {
    forall idx: nat | At(data, MARKER, idx) ensures Explained(Judges(t, false), t, data, more, idx) {
      JudgeExplained(t, data, more, idx, Segment(data, idx), IsLast(data, idx));
    }
  }

  lemma JudgeExplained(t: Text, data: seq<Byte>, more: seq<Byte>, idx: nat, a: seq<Byte>, last: bool)
    requires At(data, MARKER, idx) && a == Segment(data, idx) && last == IsLast(data, idx)
    ensures Explained(Judges(t, false), t, data, more, idx)
  {
    if last {
      JudgeByLine(t, a, true);
    } else {
      ClosedJudgement(t, data, more, idx);
    }
  }

  /** A marker that is not the last one is judged by what no further byte can change. */
  lemma ClosedJudgement(t: Text, data: seq<Byte>, more: seq<Byte>, idx: nat)
    requires At(data, MARKER, idx) && !IsLast(data, idx)
    ensures var j := Judge(t, Segment(data, idx), false, false);
            && (j.Skip? <==> !Decisive(t, data + more, idx))
            && (j.Decided? ==> j.tag != OtherTag) && !j.Wait?
  {
    JudgeByLine(t, Segment(data, idx), false);
    ClosedSegmentStays(data, more, idx);
  }

  /** If a prefix is decided by an unrecognised token, then that line is premature in the
      whole stream: nothing before it was decisive. */
  lemma {:induction false} OtherHitIsPremature(judge: Judging, t: Text, data: seq<Byte>, more: seq<Byte>, pos: nat)
    requires AllExplained(judge, t, data, more)
    requires var hit := Scan(judge, data, pos); hit.Some? && hit.value.tag == OtherTag
    requires forall j: nat | j < pos :: !Decisive(t, data + more, j)
    ensures var hit := Scan(judge, data, pos).value;
            && Premature(t, data + more, hit.at)
            && hit.result == OtherResult(t, CompleteLine(data + more, hit.at).value)
    decreases |data| - pos
  {
    var idx := Find(data, MARKER, pos).value;
    FindStable(data, data + more, MARKER, pos);
    NothingBetween(t, data + more, pos, idx);
    assert Explained(judge, t, data, more, idx);
    if IsLast(data, idx) {
      CompleteLineStays(data, more, idx);
    } else {
      OtherHitIsPremature(judge, t, data, more, idx + |MARKER|);
    }
  }

  /** Conversely, a buffer ending with a premature line is decided by it. */
  lemma {:induction false} PrematureDecides(
    judge: Judging, t: Text, data: seq<Byte>, more: seq<Byte>, idx: nat, pos: nat)
    requires AllExplained(judge, t, data, more)
    requires At(data, MARKER, idx) && IsLast(data, idx) && pos <= idx
    requires CompleteLine(data, idx).Some? && LineTag(t, CompleteLine(data, idx).value) == OtherTag
    requires forall j: nat | j < idx :: !Decisive(t, data + more, j)
    ensures Scan(judge, data, pos) == Some(Hit(idx, OtherTag, OtherResult(t, CompleteLine(data, idx).value)))
    decreases |data| - pos
  {
    var first := Find(data, MARKER, pos).value;
    if first == idx {
      assert Explained(judge, t, data, more, idx);
    } else {
      MarkersDoNotOverlap(data, first, idx);
      SkippedBefore(judge, t, data, more, first, idx);
      PrematureDecides(judge, t, data, more, idx, first + |MARKER|);
    }
  }

  lemma SkippedBefore(judge: Judging, t: Text, data: seq<Byte>, more: seq<Byte>, first: nat, idx: nat)
    requires AllExplained(judge, t, data, more)
    requires At(data, MARKER, first) && At(data, MARKER, idx) && first + |MARKER| <= idx
    requires !Decisive(t, data + more, first)
    ensures judge(Segment(data, first), IsLast(data, first)).Skip?
  {
    assert Explained(judge, t, data, more, first);
  }

  /** Every premature line in the stream happens to carry the stream's own verdict. In
      particular so if no complete marker line has an unrecognised token at all. */
  ghost predicate Harmless(t: Text, stream: seq<Byte>) {
    forall idx: nat | Premature(t, stream, idx) ::
      OutcomeOf(OtherResult(t, CompleteLine(stream, idx).value)) == Verdict(t, stream)
  }

  ghost predicate NoStrayTokens(t: Text, stream: seq<Byte>) {
    forall idx: nat | At(stream, MARKER, idx) && CompleteLine(stream, idx).Some? ::
      LineTag(t, CompleteLine(stream, idx).value) != OtherTag
  }

  lemma {:induction false} ReadIsVerdict(t: Text, buffer: seq<Byte>, chunks: seq<seq<Byte>>)
    requires Parse(t, buffer, false).None? && Harmless(t, buffer + Concat(chunks))
    ensures ReadFrom(t, buffer, chunks) == Verdict(t, buffer + Concat(chunks))
    decreases |chunks|
  {
    if chunks == [] {
      assert buffer + Concat(chunks) == buffer;
    } else {
      var buffer', rest := buffer + chunks[0], Concat(chunks[1..]);
      assert buffer + Concat(chunks) == buffer' + rest;
      if chunks[0] == [] {
        assert buffer' == buffer;
        ReadIsVerdict(t, buffer, chunks[1..]);
      } else if Parse(t, buffer', false).None? {
        ReadIsVerdict(t, buffer', chunks[1..]);
      } else if Scan(Judges(t, false), buffer', 0).value.tag == OtherTag {
        JudgesExplained(t, buffer', rest);
        OtherHitIsPremature(Judges(t, false), t, buffer', rest, 0);
      } else {
        VerdictStable(t, buffer', rest);
      }
    }
  }

  lemma EmptyDecidesNothing(t: Text)
    ensures Parse(t, [], false).None?
  {
  }

  /** Some way of cutting the stream is decided by any given premature line. */
  lemma PrematureChunking(t: Text, stream: seq<Byte>, idx: nat) returns (chunks: seq<seq<Byte>>)
    requires Premature(t, stream, idx)
    ensures Concat(chunks) == stream
    ensures ReadFrom(t, [], chunks) == OutcomeOf(OtherResult(t, CompleteLine(stream, idx).value))
  {
    var q := idx + LineEnd(Segment(stream, idx)).value + 1;
    var data, more := stream[..q], stream[q..];
    assert data + more == stream;
    chunks := [data, more];
    assert chunks[1..] == [more] && Concat([more]) == more + Concat([]);
    CutAfterLine(stream, idx, data, more);
    JudgesExplained(t, data, more);
    PrematureDecides(Judges(t, false), t, data, more, idx, 0);
    assert [] + data == data;
  }

  /** Cut right after a marker's line: the marker is the last one and its line is complete. */
  lemma CutAfterLine(stream: seq<Byte>, idx: nat, data: seq<Byte>, more: seq<Byte>)
    requires At(stream, MARKER, idx) && CompleteLine(stream, idx).Some? && stream == data + more
    requires |data| == idx + LineEnd(Segment(stream, idx)).value + 1
    ensures At(data, MARKER, idx) && IsLast(data, idx) && CompleteLine(data, idx) == CompleteLine(stream, idx)
  {
    AtStable(stream, data, MARKER, idx, |data|);
    var next := Find(data, MARKER, idx + |MARKER|);
    if next.Some? {
      ClosedSegmentStays(data, more, idx);
    }
    var a, b := Segment(stream, idx), Segment(data, idx);
    LineEndStable(a, b);
    assert a[|MARKER|..LineEnd(a).value] == b[|MARKER|..LineEnd(a).value];
  }

  /** However the stream is cut, the loop reads the stream's verdict. */
  ghost predicate ChunkingFree(t: Text, stream: seq<Byte>) {
    forall chunks | Concat(chunks) == stream :: ReadFrom(t, [], chunks) == Verdict(t, stream)
  }

  lemma HarmlessIsChunkingFree(t: Text, stream: seq<Byte>)
    requires Harmless(t, stream)
    ensures ChunkingFree(t, stream)
  {
    forall chunks | Concat(chunks) == stream ensures ReadFrom(t, [], chunks) == Verdict(t, stream) {
      EmptyDecidesNothing(t);
      assert [] + Concat(chunks) == stream;
      ReadIsVerdict(t, [], chunks);
    }
  }

  lemma ChunkingFreeIsHarmless(t: Text, stream: seq<Byte>)
    requires ChunkingFree(t, stream)
    ensures Harmless(t, stream)
  {
    forall idx: nat | Premature(t, stream, idx)
      ensures OutcomeOf(OtherResult(t, CompleteLine(stream, idx).value)) == Verdict(t, stream)
    {
      var chunks := PrematureChunking(t, stream, idx);
    }
  }

  /** The outcome is the same for every chunking of the stream exactly when the stream is
      harmless. */
  lemma ChunkingExact(t: Text, stream: seq<Byte>)
    ensures ChunkingFree(t, stream) <==> Harmless(t, stream)
  {
    if Harmless(t, stream) {
      HarmlessIsChunkingFree(t, stream);
    }
    if ChunkingFree(t, stream) {
      ChunkingFreeIsHarmless(t, stream);
    }
  }

  /** With only `ok` and `fail` on complete marker lines, chunking never matters. */
  lemma ChunkingIndependent(t: Text, chunks: seq<seq<Byte>>)
    requires NoStrayTokens(t, Concat(chunks))
    ensures ReadFrom(t, [], chunks) == Verdict(t, Concat(chunks))
  {
    assert Harmless(t, Concat(chunks));
    HarmlessIsChunkingFree(t, Concat(chunks));
  }

  // ---- A stream whose chunking matters ------------------------------------------

  function AsciiText(): Text {
    Text((b: seq<Byte>) => seq(|b|, i requires 0 <= i < |b| => if b[i] < 128 then b[i] as char else '?'),
         (s: string) => None, (s: string) => None, (s: string) => [])
  }

  /** `TESTRANGE-RESULT: x` and then `TESTRANGE-RESULT: ok`, each on its line. */
  const STRAY: seq<Byte> := MARKER + [32, 120, 10]
  const STRAY_THEN_OK: seq<Byte> := STRAY + MARKER + [32, 111, 107, 10]

  lemma StrayTag()
    ensures LineTag(AsciiText(), [32, 120]) == OtherTag
  {
    assert AsciiText().decode([32, 120]) == [' ', 'x'];
    assert [' ', 'x'][1..] == "x";
    assert StripLeft("x") == "x" && FirstToken("x")[0] == 'x';
  }

  lemma OkTagRead()
    ensures LineTag(AsciiText(), [32, 111, 107]) == OkTag
  {
    assert AsciiText().decode([32, 111, 107]) == [' ', 'o', 'k'];
    assert [' ', 'o', 'k'][1..] == "ok";
    assert StripLeft("ok") == "ok" && StripRight("ok") == "ok";
    assert "ok"[1..] == "k" && "k"[1..] == "";
    assert FirstToken("k") == ['k'] + FirstToken("");
  }

  lemma StrayMarkers()
    ensures Find(STRAY_THEN_OK, MARKER, 0) == Some(0)
    ensures Find(STRAY_THEN_OK, MARKER, 17) == Some(20)
    ensures IsLast(STRAY_THEN_OK, 20)
  {
    var s := STRAY_THEN_OK;
    assert s[0..17] == MARKER && s[20..37] == MARKER;
    FindIs(s, MARKER, 0, 0);
    forall j | 17 <= j < 20 ensures !At(s, MARKER, j) {
      assert s[j] != 84;
      if j + 17 <= |s| {
        assert s[j..j + 17][0] == s[j];
      }
    }
    FindIs(s, MARKER, 17, 20);
  }

  lemma LineOfMarker(data: seq<Byte>, idx: nat, line: seq<Byte>, tail: seq<Byte>)
    requires At(data, MARKER, idx) && Segment(data, idx) == MARKER + line + [10] + tail
    requires forall i | 0 <= i < |line| :: line[i] != 10
    ensures CompleteLine(data, idx) == Some(line)
  {
    var rest := Segment(data, idx)[|MARKER|..];
    assert rest == line + [10] + tail;
    forall j | 0 <= j < |line| ensures !At(rest, NEWLINE, j) {
      assert rest[j..j + 1][0] == line[j];
    }
    assert rest[|line|..|line| + 1] == NEWLINE;
    FindIs(rest, NEWLINE, 0, |line|);
    assert Segment(data, idx)[|MARKER|..|MARKER| + |line|] == line;
  }

  lemma TwoMarkerScan(judge: Judging, data: seq<Byte>, i: nat, j: nat, r: BuildResult)
    requires Find(data, MARKER, 0) == Some(i) && Find(data, MARKER, i + |MARKER|) == Some(j) && IsLast(data, j)
    requires judge(Segment(data, i), false).Skip? && judge(Segment(data, j), true) == Decided(OkTag, r)
    ensures Scan(judge, data, 0) == Some(Hit(j, OkTag, r))
  {
    assert Scan(judge, data, i + |MARKER|) == Some(Hit(j, OkTag, r));
  }

  lemma StrayLines()
    ensures At(STRAY_THEN_OK, MARKER, 0) && CompleteLine(STRAY_THEN_OK, 0) == Some([32, 120])
    ensures At(STRAY_THEN_OK, MARKER, 20) && CompleteLine(STRAY_THEN_OK, 20) == Some([32, 111, 107])
  {
    var s := STRAY_THEN_OK;
    StrayMarkers();
    assert Segment(s, 0) == MARKER + [32, 120] + [10] + [];
    LineOfMarker(s, 0, [32, 120], []);
    assert Segment(s, 20) == MARKER + [32, 111, 107] + [10] + [];
    LineOfMarker(s, 20, [32, 111, 107], []);
  }

  lemma StrayVerdict()
    ensures Verdict(AsciiText(), STRAY_THEN_OK) == Returned
  {
    var t, s := AsciiText(), STRAY_THEN_OK;
    StrayTag();
    OkTagRead();
    StrayMarkers();
    StrayLines();
    JudgeByLine(t, Segment(s, 0), false);
    JudgeByLine(t, Segment(s, 20), true);
    TwoMarkerScan(Judges(t, false), s, 0, 20, BuildResult(true, None, None, []));
  }

  /** The hypothesis is needed: read in one piece this stream succeeds, cut after its first
      line it fails. */
  lemma ChunkingCanMatter()
    ensures Verdict(AsciiText(), STRAY_THEN_OK) == Returned
    ensures !ChunkingFree(AsciiText(), STRAY_THEN_OK)
  {
    StrayVerdict();
    StrayTag();
    StrayLines();
    assert Premature(AsciiText(), STRAY_THEN_OK, 0);
    ChunkingExact(AsciiText(), STRAY_THEN_OK);
  }

  // ---- Success needs an ok marker ---------------------------------------------

  /** The marker's line, or what there is of it. */
  function WholeLine(data: seq<Byte>, idx: nat): seq<Byte>
    requires At(data, MARKER, idx)
  {
    match CompleteLine(data, idx)
    case Some(line) => line
    case None => Segment(data, idx)[|MARKER|..]
  }

  ghost predicate SaysOk(t: Text, data: seq<Byte>, idx: nat) {
    At(data, MARKER, idx) && LineTag(t, WholeLine(data, idx)) == OkTag
  }

  lemma JudgedOk(t: Text, a: seq<Byte>, last: bool, final: bool)
    requires |MARKER| <= |a| && Judge(t, a, last, final).Decided? && Judge(t, a, last, final).result.ok
    ensures LineEnd(a).None? ==> final && LineTag(t, a[|MARKER|..]) == OkTag
    ensures LineEnd(a).Some? ==> LineTag(t, a[|MARKER|..LineEnd(a).value]) == OkTag
  {
    assert Slice(a, |MARKER|, |a|) == a[|MARKER|..];
    if LineEnd(a).Some? {
      assert a[|MARKER|..][..LineEnd(a).value - |MARKER|] == a[|MARKER|..LineEnd(a).value];
    }
  }

  /** A judgement of success on a marker that says `ok`. */
  ghost predicate OkJustified(judge: Judging, t: Text, data: seq<Byte>, idx: nat, final: bool) {
    && At(data, MARKER, idx)
    && (var j := judge(Segment(data, idx), IsLast(data, idx));
        j.Decided? && j.result.ok ==> SaysOk(t, data, idx) && (!final ==> CompleteLine(data, idx).Some?))
  }

  lemma JudgesJustified(t: Text, data: seq<Byte>, idx: nat, final: bool)
    requires At(data, MARKER, idx)
    ensures OkJustified(Judges(t, final), t, data, idx, final)
  {
    var a, last := Segment(data, idx), IsLast(data, idx);
    if Judge(t, a, last, final).Decided? && Judge(t, a, last, final).result.ok {
      JudgedOk(t, a, last, final);
    }
  }

  lemma {:induction false} OkHitFound(judge: Judging, t: Text, data: seq<Byte>, pos: nat, final: bool)
    requires forall idx: nat {:trigger OkJustified(judge, t, data, idx, final)} ::
               At(data, MARKER, idx) ==> OkJustified(judge, t, data, idx, final)
    requires Scan(judge, data, pos).Some? && Scan(judge, data, pos).value.result.ok
    ensures OkJustified(judge, t, data, Scan(judge, data, pos).value.at, final)
    ensures var at := Scan(judge, data, pos).value.at;
            SaysOk(t, data, at) && (!final ==> CompleteLine(data, at).Some?)
    decreases |data| - pos
  {
    var idx := Find(data, MARKER, pos).value;
    assert OkJustified(judge, t, data, idx, final);
    if judge(Segment(data, idx), IsLast(data, idx)).Skip? {
      OkHitFound(judge, t, data, idx + |MARKER|, final);
    }
  }

  lemma OkHitSaysOk(t: Text, data: seq<Byte>, final: bool)
    requires var hit := Scan(Judges(t, final), data, 0); hit.Some? && hit.value.result.ok
    ensures var at := Scan(Judges(t, final), data, 0).value.at;
            SaysOk(t, data, at) && (!final ==> CompleteLine(data, at).Some?)
  {
    forall idx: nat | At(data, MARKER, idx) ensures OkJustified(Judges(t, final), t, data, idx, final) {
      JudgesJustified(t, data, idx, final);
    }
    OkHitFound(Judges(t, final), t, data, 0, final);
  }

  /** For every chunking, even of a harmful stream: the build counts as successful only if
      the first token after some marker in the stream is `ok`. */
  lemma {:induction false} SuccessNeedsOk(t: Text, buffer: seq<Byte>, chunks: seq<seq<Byte>>) returns (at: nat)
    requires ReadFrom(t, buffer, chunks) == Returned
    ensures SaysOk(t, buffer + Concat(chunks), at)
    decreases |chunks|
  {
    if chunks == [] {
      assert buffer + Concat(chunks) == buffer;
      OkHitSaysOk(t, buffer, true);
      at := Scan(Judges(t, true), buffer, 0).value.at;
    } else {
      var buffer', rest := buffer + chunks[0], Concat(chunks[1..]);
      assert buffer + Concat(chunks) == buffer' + rest;
      if chunks[0] != [] && Parse(t, buffer', false).Some? {
        OkHitSaysOk(t, buffer', false);
        at := Scan(Judges(t, false), buffer', 0).value.at;
        CompleteLineStays(buffer', rest, at);
      } else {
        assert chunks[0] == [] ==> buffer' == buffer;
        at := SuccessNeedsOk(t, buffer', chunks[1..]);
      }
    }
  }
}
