/** What the host reads from a guest's serial stream: the parser's answer by the first marker
    that counts, and the failure log end to end.
 */
module SerialLog {
  import opened Wrappers
  import opened Bytes
  import opened SerialResult
  import opened SerialReading
  import Base64

  // ---- The text of the result line -----------------------------------------------------------------

  function Ascii(s: string): seq<Byte> {
    seq(|s|, i requires 0 <= i < |s| => if s[i] as int < 128 then s[i] as int else 63)
  }

  lemma MarkersSpell()
    ensures MARKER == Ascii("TESTRANGE-RESULT:")
    ensures LOG_BEGIN == Ascii("TESTRANGE-LOG-BEGIN") && LOG_END == Ascii("TESTRANGE-LOG-END")
    ensures NEWLINE == Ascii("\n")
  {
  }

  ghost predicate Blank(s: string) {
    forall i | 0 <= i < |s| :: IsSpace(s[i])
  }

  lemma {:induction false} StripLeftIs(s: string) returns (left: string)
    ensures s == left + StripLeft(s) && Blank(left)
    ensures StripLeft(s) != "" ==> !IsSpace(StripLeft(s)[0])
  {
    if s != "" && IsSpace(s[0]) {
      var more := StripLeftIs(s[1..]);
      left := [s[0]] + more;
    } else {
      left := "";
    }
  }

  lemma {:induction false} StripRightIs(s: string) returns (right: string)
    ensures s == StripRight(s) + right && Blank(right)
    ensures StripRight(s) != "" ==> !IsSpace(StripRight(s)[|StripRight(s)| - 1])
  {
    if s != "" && IsSpace(s[|s| - 1]) {
      var more := StripRightIs(s[..|s| - 1]);
      right := more + [s[|s| - 1]];
    } else {
      right := "";
    }
  }

  /** Stripping removes the blanks at both ends and nothing else. */
  lemma StripIs(s: string) returns (left: string, right: string)
    ensures s == left + Strip(s) + right && Blank(left) && Blank(right)
    ensures var r := Strip(s); r != "" ==> !IsSpace(r[0]) && !IsSpace(r[|r| - 1])
  {
    left := StripLeftIs(s);
    right := StripRightIs(StripLeft(s));
  }

  /** The token is what comes before the first blank. */
  lemma {:induction false} TokenIs(s: string)
    ensures FirstToken(s) <= s && (forall i | 0 <= i < |FirstToken(s)| :: !IsSpace(s[i]))
    ensures |FirstToken(s)| < |s| ==> IsSpace(s[|FirstToken(s)|])
  {
    if s != "" && !IsSpace(s[0]) {
      TokenIs(s[1..]);
    }
  }

  // ---- The answer while the stream is open ------------------------------------------------------

  /** What a decisive marker reports. */
  function Reported(t: Text, data: seq<Byte>, idx: nat): BuildResult
    requires At(data, MARKER, idx)
  {
    if LineTag(t, WholeLine(data, idx)) == OkTag then BuildResult(true, None, None, [])
    else FailResult(t, WholeLine(data, idx), Segment(data, idx))
  }

  ghost predicate FirstDecisive(t: Text, data: seq<Byte>, idx: nat) {
    Decisive(t, data, idx) && forall j: nat | j < idx :: !Decisive(t, data, j)
  }

  lemma SkipsOn(judge: Judging, data: seq<Byte>, pos: nat, first: nat)
    requires Find(data, MARKER, pos) == Some(first) && judge(Segment(data, first), IsLast(data, first)).Skip?
    ensures Scan(judge, data, pos) == Scan(judge, data, first + |MARKER|)
  {
  }

  lemma DecidesThere(judge: Judging, data: seq<Byte>, pos: nat, idx: nat, tag: Tag, r: BuildResult)
    requires Find(data, MARKER, pos) == Some(idx)
    requires judge(Segment(data, idx), IsLast(data, idx)) == Decided(tag, r)
    ensures Scan(judge, data, pos) == Some(Hit(idx, tag, r))
  {
  }

  lemma EarlierIsNotLast(data: seq<Byte>, first: nat, idx: nat)
    requires At(data, MARKER, first) && At(data, MARKER, idx) && first < idx
    ensures first + |MARKER| <= idx && !IsLast(data, first)
  {
    MarkersDoNotOverlap(data, first, idx);
  }

  lemma {:induction false} ScanFindsDecisive(
    judge: Judging, t: Text, data: seq<Byte>, idx: nat, pos: nat, tag: Tag, r: BuildResult)
    requires AllExplained(judge, t, data, []) && FirstDecisive(t, data, idx) && pos <= idx
    requires judge(Segment(data, idx), IsLast(data, idx)) == Decided(tag, r)
    ensures Scan(judge, data, pos) == Some(Hit(idx, tag, r))
    decreases |data| - pos
  {
    var first := Find(data, MARKER, pos).value;
    if first == idx {
      DecidesThere(judge, data, pos, idx, tag, r);
    } else {
      EarlierIsNotLast(data, first, idx);
      assert data + [] == data;
      SkippedBefore(judge, t, data, [], first, idx);
      SkipsOn(judge, data, pos, first);
      ScanFindsDecisive(judge, t, data, idx, first + |MARKER|, tag, r);
    }
  }

  /** While the stream is open, the first decisive marker is the answer: success for `ok`; for
      `fail` the code and command on its line and the decoded frame. */
  lemma DecisiveAnswers(t: Text, data: seq<Byte>, idx: nat)
    requires FirstDecisive(t, data, idx)
    ensures Parse(t, data, false) == Some(Reported(t, data, idx))
  {
    JudgesExplained(t, data, []);
    JudgeByLine(t, Segment(data, idx), IsLast(data, idx));
    var tag := LineTag(t, WholeLine(data, idx));
    ScanFindsDecisive(Judges(t, false), t, data, idx, 0, tag, Reported(t, data, idx));
  }

  // ---- The answer once the stream has closed ----------------------------------------------------

  /** A marker whose line, as far as it goes, says `ok` or `fail`. */
  ghost predicate Telling(t: Text, data: seq<Byte>, idx: nat) {
    At(data, MARKER, idx) && LineTag(t, WholeLine(data, idx)) != OtherTag
  }

  ghost predicate FirstTelling(t: Text, data: seq<Byte>, idx: nat) {
    Telling(t, data, idx) && forall j: nat | j < idx :: !Telling(t, data, j)
  }

  /** The final judgement, read off the line as far as it goes. */
  lemma FinalJudgement(t: Text, data: seq<Byte>, idx: nat)
    requires At(data, MARKER, idx)
    ensures var j := Judge(t, Segment(data, idx), IsLast(data, idx), true);
            var line := WholeLine(data, idx);
            match LineTag(t, line)
            case OkTag => j == Decided(OkTag, Reported(t, data, idx))
            case FailTag => j == Decided(FailTag, Reported(t, data, idx))
            case OtherTag => j == if IsLast(data, idx) then Decided(OtherTag, OtherResult(t, line)) else Skip
  {
    var a := Segment(data, idx);
    assert Slice(a, |MARKER|, |a|) == a[|MARKER|..];
    if LineEnd(a).Some? {
      assert a[|MARKER|..][..LineEnd(a).value - |MARKER|] == a[|MARKER|..LineEnd(a).value];
    }
  }

  /** A judgement that matches the final one. */
  ghost predicate FinalExplained(judge: Judging, t: Text, data: seq<Byte>, idx: nat) {
    && At(data, MARKER, idx)
    && (var j, line := judge(Segment(data, idx), IsLast(data, idx)), WholeLine(data, idx);
        if Telling(t, data, idx) then j == Decided(LineTag(t, line), Reported(t, data, idx))
        else j == if IsLast(data, idx) then Decided(OtherTag, OtherResult(t, line)) else Skip)
  }

  ghost predicate AllFinal(judge: Judging, t: Text, data: seq<Byte>) {
    forall idx: nat {:trigger FinalExplained(judge, t, data, idx)} ::
      At(data, MARKER, idx) ==> FinalExplained(judge, t, data, idx)
  }

  lemma FinalJudgements(t: Text, data: seq<Byte>)
    ensures AllFinal(Judges(t, true), t, data)
  {
    forall idx: nat | At(data, MARKER, idx) ensures FinalExplained(Judges(t, true), t, data, idx) {
      FinalJudgement(t, data, idx);
    }
  }

  lemma {:induction false} ScanFindsTelling(judge: Judging, t: Text, data: seq<Byte>, idx: nat, pos: nat)
    requires AllFinal(judge, t, data) && FirstTelling(t, data, idx) && pos <= idx
    ensures Scan(judge, data, pos) == Some(Hit(idx, LineTag(t, WholeLine(data, idx)), Reported(t, data, idx)))
    decreases |data| - pos
  {
    var first := Find(data, MARKER, pos).value;
    assert FinalExplained(judge, t, data, first);
    if first == idx {
      DecidesThere(judge, data, pos, idx, LineTag(t, WholeLine(data, idx)), Reported(t, data, idx));
    } else {
      EarlierIsNotLast(data, first, idx);
      SkipsOn(judge, data, pos, first);
      ScanFindsTelling(judge, t, data, idx, first + |MARKER|);
    }
  }

  lemma {:induction false} ScanFindsLast(judge: Judging, t: Text, data: seq<Byte>, idx: nat, pos: nat)
    requires AllFinal(judge, t, data) && At(data, MARKER, idx) && IsLast(data, idx) && pos <= idx
    requires forall j: nat :: !Telling(t, data, j)
    ensures Scan(judge, data, pos) == Some(Hit(idx, OtherTag, OtherResult(t, WholeLine(data, idx))))
    decreases |data| - pos
  {
    var first := Find(data, MARKER, pos).value;
    assert FinalExplained(judge, t, data, first) && !Telling(t, data, first);
    if first == idx {
      DecidesThere(judge, data, pos, idx, OtherTag, OtherResult(t, WholeLine(data, idx)));
    } else {
      EarlierIsNotLast(data, first, idx);
      SkipsOn(judge, data, pos, first);
      ScanFindsLast(judge, t, data, idx, first + |MARKER|);
    }
  }

  /** Once the stream has closed, the first marker whose line says `ok` or `fail` is the answer,
      with an empty log if its frame is unfinished; failing that, the last marker's line is
      reported as it is; without any marker there is no answer. */
  lemma FinalAnswers(t: Text, data: seq<Byte>)
    ensures forall idx: nat | FirstTelling(t, data, idx) :: Parse(t, data, true) == Some(Reported(t, data, idx))
    ensures forall idx: nat | At(data, MARKER, idx) && IsLast(data, idx) && (forall j: nat :: !Telling(t, data, j)) ::
              Parse(t, data, true) == Some(OtherResult(t, WholeLine(data, idx)))
    ensures (forall j: nat :: !At(data, MARKER, j)) ==> Parse(t, data, true) == None
  {
    FinalJudgements(t, data);
    forall idx: nat | FirstTelling(t, data, idx) ensures Parse(t, data, true) == Some(Reported(t, data, idx)) {
      ScanFindsTelling(Judges(t, true), t, data, idx, 0);
    }
    forall idx: nat | At(data, MARKER, idx) && IsLast(data, idx) && (forall j: nat :: !Telling(t, data, j))
      ensures Parse(t, data, true) == Some(OtherResult(t, WholeLine(data, idx)))
    {
      ScanFindsLast(Judges(t, true), t, data, idx, 0);
    }
  }

  // ---- An open stream with nothing decisive in it -------------------------------------------------

  ghost predicate SaysOther(t: Text, data: seq<Byte>, idx: nat) {
    At(data, MARKER, idx) && CompleteLine(data, idx).Some? && LineTag(t, CompleteLine(data, idx).value) == OtherTag
  }

  /** A judgement that decides nothing, unless it is of the last marker and its line is neither
      `ok` nor `fail`. */
  ghost predicate OpenExplained(judge: Judging, t: Text, data: seq<Byte>, idx: nat) {
    && At(data, MARKER, idx)
    && (var j := judge(Segment(data, idx), IsLast(data, idx));
        if IsLast(data, idx) && SaysOther(t, data, idx) then
          j == Decided(OtherTag, OtherResult(t, WholeLine(data, idx)))
        else j.Skip? || (IsLast(data, idx) && j.Wait?))
  }

  lemma {:induction false} OpenScan(judge: Judging, t: Text, data: seq<Byte>, pos: nat)
    requires forall idx: nat {:trigger OpenExplained(judge, t, data, idx)} ::
               At(data, MARKER, idx) ==> OpenExplained(judge, t, data, idx)
    ensures match Scan(judge, data, pos)
            case None => forall idx: nat | pos <= idx && At(data, MARKER, idx) && IsLast(data, idx) ::
                           !SaysOther(t, data, idx)
            case Some(hit) =>
              IsLast(data, hit.at) && SaysOther(t, data, hit.at) &&
              hit.result == OtherResult(t, WholeLine(data, hit.at))
    decreases |data| - pos
  {
    var next := Find(data, MARKER, pos);
    if next.Some? {
      var first := next.value;
      assert OpenExplained(judge, t, data, first);
      OpenScan(judge, t, data, first + |MARKER|);
      forall idx: nat | first < idx && At(data, MARKER, idx) ensures first + |MARKER| <= idx {
        MarkersDoNotOverlap(data, first, idx);
      }
    }
  }

  /** While the stream is open and no marker is decisive, there is an answer only if the last
      marker's line is complete and says neither `ok` nor `fail`; then that line is reported. */
  lemma UndecidedAnswers(t: Text, data: seq<Byte>)
    requires forall j: nat :: !Decisive(t, data, j)
    ensures match Parse(t, data, false)
            case None => forall idx: nat | At(data, MARKER, idx) && IsLast(data, idx) :: !SaysOther(t, data, idx)
            case Some(r) =>
              exists idx: nat :: SaysOther(t, data, idx) && IsLast(data, idx) &&
                                 r == OtherResult(t, WholeLine(data, idx))
  {
    forall idx: nat | At(data, MARKER, idx) ensures OpenExplained(Judges(t, false), t, data, idx) {
      assert !Decisive(t, data, idx);
      JudgeByLine(t, Segment(data, idx), IsLast(data, idx));
    }
    OpenScan(Judges(t, false), t, data, 0);
    if Scan(Judges(t, false), data, 0).Some? {
      assert SaysOther(t, data, Scan(Judges(t, false), data, 0).value.at);
    }
  }

  // ---- The failure log, end to end -------------------------------------------------------------------

  /** Nowhere in `head + sub` does `sub` start before its own place. */
  ghost predicate OnlyAtEnd(head: seq<Byte>, sub: seq<Byte>) {
    forall j | 0 <= j < |head| :: !At(head + sub, sub, j)
  }

  lemma FindsAtEnd(head: seq<Byte>, sub: seq<Byte>, more: seq<Byte>)
    requires OnlyAtEnd(head, sub)
    ensures Find(head + sub + more, sub, 0) == Some(|head|)
  {
    var a, b := head + sub, head + sub + more;
    assert a[|head|..|head| + |sub|] == sub;
    FindIs(a, sub, 0, |head|);
    FindStable(a, b, sub, 0);
  }

  /** A line that opens a frame, what is in the frame, and what follows. */
  function Framed(head: seq<Byte>, opening: seq<Byte>, raw: seq<Byte>): seq<Byte> {
    head + LOG_BEGIN + opening + NEWLINE + raw
  }

  /** The bytes of the frame are those between the first opening line and the first closing
      marker after it. */
  lemma FrameFound(head: seq<Byte>, opening: seq<Byte>, raw: seq<Byte>, more: seq<Byte>)
    requires OnlyAtEnd(head, LOG_BEGIN) && (forall i | 0 <= i < |opening| :: opening[i] != 10)
    requires OnlyAtEnd(raw, LOG_END)
    ensures FrameContent(Framed(head, opening, raw) + LOG_END + more) == Some(raw)
  {
    var rest := raw + LOG_END + more;
    FrameOpens(head, opening, rest);
    assert Framed(head, opening, raw) + LOG_END + more == Framed(head, opening, rest);
    FindsAtEnd(raw, LOG_END, more);
    ClosedFrame(Framed(head, opening, rest), |head|, |head| + |LOG_BEGIN| + |opening|, rest, |raw|);
    assert rest[..|raw|] == raw;
  }

  lemma ClosedFrame(a: seq<Byte>, begin: nat, start: nat, rest: seq<Byte>, end: nat)
    requires Find(a, LOG_BEGIN, 0) == Some(begin) && Find(a, NEWLINE, begin) == Some(start)
    requires start < |a| && a[start..] == NEWLINE + rest && Find(rest, LOG_END, 0) == Some(end)
    ensures FrameContent(a) == Some(rest[..end])
  {
    FindAfter(a, LOG_END, start, rest, end);
    SliceOfSlice(a, start, 1, end);
    assert (NEWLINE + rest)[1..1 + end] == rest[..end];
  }

  lemma FrameOpens(head: seq<Byte>, opening: seq<Byte>, rest: seq<Byte>)
    requires OnlyAtEnd(head, LOG_BEGIN) && (forall i | 0 <= i < |opening| :: opening[i] != 10)
    ensures var a, start := Framed(head, opening, rest), |head| + |LOG_BEGIN| + |opening|;
            && Find(a, LOG_BEGIN, 0) == Some(|head|) && Find(a, NEWLINE, |head|) == Some(start)
  {
    var a, start := Framed(head, opening, rest), |head| + |LOG_BEGIN| + |opening|;
    FindsAtEnd(head, LOG_BEGIN, opening + NEWLINE + rest);
    assert a == head + LOG_BEGIN + (opening + NEWLINE + rest);
    FrameMarkersHaveNoNewline();
    forall j | |head| <= j < start ensures !At(a, NEWLINE, j) {
      assert a[j] == (LOG_BEGIN + opening)[j - |head|];
      assert a[j..j + 1][0] == a[j];
    }
    assert a[start..start + 1] == NEWLINE;
    FindIs(a, NEWLINE, |head|, start);
  }

  /** A search that starts on the newline before `rest` finds what is in `rest`. */
  lemma FindAfter(a: seq<Byte>, sub: seq<Byte>, start: nat, rest: seq<Byte>, at: nat)
    requires start < |a| && a[start..] == NEWLINE + rest && Find(rest, sub, 0) == Some(at)
    requires sub != [] && sub[0] != 10
    ensures Find(a, sub, start) == Some(start + 1 + at)
  {
    forall j | start <= j ensures At(a, sub, j) <==> start < j && At(rest, sub, j - start - 1) {
      Shifted(a, sub, start, rest, j);
    }
    FindIs(a, sub, start, start + 1 + at);
  }

  lemma SliceOfSlice(a: seq<Byte>, start: nat, k: nat, n: nat)
    requires start + k + n <= |a|
    ensures a[start..][k..k + n] == a[start + k..start + k + n]
  {
  }

  lemma Shifted(a: seq<Byte>, sub: seq<Byte>, start: nat, rest: seq<Byte>, j: nat)
    requires start < |a| && a[start..] == NEWLINE + rest && start <= j && sub != [] && sub[0] != 10
    ensures At(a, sub, j) <==> start < j && At(rest, sub, j - start - 1)
  {
    assert a[start] == a[start..][0] == 10;
    assert |rest| == |a| - start - 1;
    if j + |sub| <= |a| {
      assert a[j..j + |sub|][0] == a[j];
      if start < j {
        var k := j - start;
        SliceOfSlice(a, start, k, |sub|);
        assert (NEWLINE + rest)[k..k + |sub|] == rest[k - 1..k - 1 + |sub|];
      }
    }
  }

  /** What a failing guest puts on the console after the marker: the rest of its `fail` line,
      more output, the line that opens the frame, the frame with its noise, and what follows. */
  datatype Failure = Failure(
    line: seq<Byte>, output: seq<Byte>, opening: seq<Byte>, raw: seq<Byte>, more: seq<Byte>)
  {
    function Head(): seq<Byte> {
      MARKER + line + NEWLINE + output
    }

    function Printed(): seq<Byte> {
      Framed(Head(), opening, raw) + LOG_END + more
    }

    /** The two lines end where they seem to, and so do the frame's markers. */
    ghost predicate WellPrinted() {
      && (forall i | 0 <= i < |line| :: line[i] != 10)
      && (forall i | 0 <= i < |opening| :: opening[i] != 10)
      && OnlyAtEnd(Head(), LOG_BEGIN) && OnlyAtEnd(raw, LOG_END)
    }
  }

  lemma LineThenRest(f: Failure)
    ensures f.Printed() == MARKER + f.line + [10] +
                           (f.output + LOG_BEGIN + f.opening + NEWLINE + f.raw + LOG_END + f.more)
  {
  }

  lemma DecodedFailure(t: Text, data: seq<Byte>, idx: nat, line: seq<Byte>, raw: seq<Byte>, log: seq<Byte>)
    requires At(data, MARKER, idx) && (forall j: nat | j < idx :: !Decisive(t, data, j))
    requires CompleteLine(data, idx) == Some(line) && LineTag(t, line) == FailTag
    requires FrameContent(Segment(data, idx)) == Some(raw) && Base64.Noisy(Base64.Encode(log), raw)
    ensures var text := Strip(t.decode(line));
            Parse(t, data, false) == Some(BuildResult(false, t.rc(text), t.cmd(text), log))
  {
    Base64.RoundTrip(log, raw);
    DecisiveAnswers(t, data, idx);
  }

  /** From the guest to the host: a guest that fails prints a `fail` line and frames its log in
      base64. Whatever came before, as long as it decides nothing, and whatever foreign bytes
      the console put between the characters, the host reports the line's code and command and
      exactly the log. */
  lemma FailureLogArrives(t: Text, data: seq<Byte>, idx: nat, f: Failure, log: seq<Byte>)
    requires At(data, MARKER, idx) && (forall j: nat | j < idx :: !Decisive(t, data, j))
    requires Segment(data, idx) == f.Printed() && f.WellPrinted() && LineTag(t, f.line) == FailTag
    requires Base64.Noisy(Base64.Encode(log), f.raw)
    ensures var text := Strip(t.decode(f.line));
            Parse(t, data, false) == Some(BuildResult(false, t.rc(text), t.cmd(text), log))
  {
    FrameFound(f.Head(), f.opening, f.raw, f.more);
    LineThenRest(f);
    LineOfMarker(data, idx, f.line, f.output + LOG_BEGIN + f.opening + NEWLINE + f.raw + LOG_END + f.more);
    DecodedFailure(t, data, idx, f.line, f.raw, log);
  }

  /** And so it is when the stream is read in chunks of any size, as long as every complete
      marker line says `ok` or `fail`. */
  lemma FailureLogIsRead(t: Text, chunks: seq<seq<Byte>>, idx: nat, f: Failure, log: seq<Byte>)
    requires var data := Concat(chunks);
             && NoStrayTokens(t, data)
             && At(data, MARKER, idx) && (forall j: nat | j < idx :: !Decisive(t, data, j))
             && Segment(data, idx) == f.Printed()
    requires f.WellPrinted() && LineTag(t, f.line) == FailTag && Base64.Noisy(Base64.Encode(log), f.raw)
    ensures var text := Strip(t.decode(f.line));
            ReadFrom(t, [], chunks) == Failed(t.rc(text), t.cmd(text), log, true)
  {
    FailureLogArrives(t, Concat(chunks), idx, f, log);
    ChunkingIndependent(t, chunks);
  }

  /** A `fail` line whose frame the guest never finished is reported, with an empty log. */
  lemma UnfinishedLogIsEmpty(t: Text, data: seq<Byte>, idx: nat)
    requires FirstTelling(t, data, idx) && LineTag(t, WholeLine(data, idx)) == FailTag
    requires FrameContent(Segment(data, idx)).None?
    ensures var text := Strip(t.decode(WholeLine(data, idx)));
            Parse(t, data, true) == Some(BuildResult(false, t.rc(text), t.cmd(text), []))
  {
    FinalAnswers(t, data);
  }

  // ---- A guest that died without a result ---------------------------------------------------------------

  /** A frame cut short still yields the bytes of its whole groups. */
  lemma CutLogIsRecovered(head: seq<Byte>, opening: seq<Byte>, raw: seq<Byte>, log: seq<Byte>, k: nat)
    requires OnlyAtEnd(head, LOG_BEGIN) && (forall i | 0 <= i < |opening| :: opening[i] != 10)
    requires (forall j: nat :: !At(raw, LOG_END, j)) && k <= |Base64.Encode(log)|
    requires Base64.Noisy(Base64.Encode(log)[..k], raw)
    ensures var kept := if k <= |Base64.Sextets(log)| then k else |Base64.Sextets(log)|;
            kept * 3 / 4 <= |log| && PartialFrame(Framed(head, opening, raw)) == log[..kept * 3 / 4]
  {
    FrameOpens(head, opening, raw);
    OpenFrame(Framed(head, opening, raw), |head|, |head| + |LOG_BEGIN| + |opening|, raw);
    Base64.CutRoundTrip(log, k, raw);
  }

  /** A frame that is not closed reaches to the end. */
  lemma OpenFrame(a: seq<Byte>, begin: nat, start: nat, raw: seq<Byte>)
    requires Find(a, LOG_BEGIN, 0) == Some(begin) && Find(a, NEWLINE, begin) == Some(start)
    requires start < |a| && a[start..] == NEWLINE + raw && forall j: nat :: !At(raw, LOG_END, j)
    ensures PartialFrame(a) == Base64.DecodeTolerant(raw)
  {
    forall j: nat | start <= j ensures !At(a, LOG_END, j) {
      Shifted(a, LOG_END, start, raw, j);
    }
    assert Find(a, LOG_END, start) == None;
    assert a[start + 1..] == a[start..][1..] == raw;
    assert Slice(a, start + 1, |a|) == raw;
  }

  /** Without an opened frame, or with an empty one, the log is the end of the stream: all of
      it up to 4096 bytes. */
  lemma FallbackIs(buffer: seq<Byte>)
    ensures PartialFrame(buffer) != [] ==> FallbackLog(buffer) == PartialFrame(buffer)
    ensures PartialFrame(buffer) == [] ==>
              && |FallbackLog(buffer)| == (if |buffer| <= 4096 then |buffer| else 4096)
              && FallbackLog(buffer) == buffer[|buffer| - |FallbackLog(buffer)|..]
    ensures (forall j: nat :: !At(buffer, LOG_BEGIN, j)) ==> PartialFrame(buffer) == []
  {
  }

  /** A stream that closes without any marker fails, unreported, with the fallback log, however
      it was cut into chunks. */
  lemma SilentGuestFails(t: Text, chunks: seq<seq<Byte>>)
    requires forall j: nat :: !At(Concat(chunks), MARKER, j)
    ensures ReadFrom(t, [], chunks) == Failed(None, None, FallbackLog(Concat(chunks)), false)
  {
    var data := Concat(chunks);
    UndecidedAnswers(t, data);
    FinalAnswers(t, data);
    ChunkingIndependent(t, chunks);
  }
}
