/** The build-result record carried over a guest's serial console.

    The guest prints `TESTRANGE-RESULT: ok`, or `TESTRANGE-RESULT: fail ...` followed by
    a framed base64 log. The host re-parses the growing buffer after every chunk. Console
    chatter may contain the marker too, so every occurrence is a candidate.
 */
module SerialResult {
  import opened Wrappers
  import opened Bytes
  import Base64

  /** "TESTRANGE-RESULT:" */
  const MARKER: seq<Byte> := [84, 69, 83, 84, 82, 65, 78, 71, 69, 45, 82, 69, 83, 85, 76, 84, 58]
  /** "TESTRANGE-LOG-BEGIN" */
  const LOG_BEGIN: seq<Byte> := [84, 69, 83, 84, 82, 65, 78, 71, 69, 45, 76, 79, 71, 45, 66, 69, 71, 73, 78]
  /** "TESTRANGE-LOG-END" */
  const LOG_END: seq<Byte> := [84, 69, 83, 84, 82, 65, 78, 71, 69, 45, 76, 79, 71, 45, 69, 78, 68]
  const NEWLINE: seq<Byte> := [10]

  const FALLBACK_TAIL_BYTES := 4096

  /** The text operations that belong to Python: UTF-8 decoding with replacement, the
      `rc=` and `cmd=` searches, and the rendering of an unrecognised line. Everything
      below holds for any choice of them. */
  datatype Text = Text(
    decode: seq<Byte> -> string,
    rc: string -> Option<int>,
    cmd: string -> Option<string>,
    unrecognized: string -> seq<Byte>)

  datatype BuildResult = BuildResult(ok: bool, rc: Option<int>, cmd: Option<string>, log: seq<Byte>)

  // ---- The result line ----------------------------------------------------

  /** Python's `str.isspace`. */
  predicate IsSpace(c: char) {
    var u := c as int;
    || 0x09 <= u <= 0x0d || 0x1c <= u <= 0x20 || u == 0x85 || u == 0xa0 || u == 0x1680
    || 0x2000 <= u <= 0x200a || u == 0x2028 || u == 0x2029 || u == 0x202f || u == 0x205f || u == 0x3000
  }

  function StripLeft(s: string): string {
    if s != "" && IsSpace(s[0]) then StripLeft(s[1..]) else s
  }

  function StripRight(s: string): string {
    if s != "" && IsSpace(s[|s| - 1]) then StripRight(s[..|s| - 1]) else s
  }

  function Strip(s: string): string {
    StripRight(StripLeft(s))
  }

  /** Characters up to the first space; empty for an empty text. */
  function FirstToken(s: string): string {
    if s == "" || IsSpace(s[0]) then "" else [s[0]] + FirstToken(s[1..])
  }

  datatype Tag = OkTag | FailTag | OtherTag

  function TagOf(text: string): Tag {
    var token := FirstToken(text);
    if token == "ok" then OkTag else if token == "fail" then FailTag else OtherTag
  }

  function LineTag(t: Text, line: seq<Byte>): Tag {
    TagOf(Strip(t.decode(line)))
  }

  // ---- The framed log -----------------------------------------------------

  /** The bytes between the frame's opening line and its closing marker, once both are there. */
  function FrameContent(segment: seq<Byte>): Option<seq<Byte>> {
    var begin := Find(segment, LOG_BEGIN, 0);
    if begin.None? then None
    else
      var contentStart := Find(segment, NEWLINE, begin.value);
      if contentStart.None? then None
      else
        var end := Find(segment, LOG_END, contentStart.value);
        if end.None? then None
        else Some(Slice(segment, contentStart.value + 1, end.value))
  }

  datatype LogBlock = LogBlock(log: seq<Byte>, complete: bool)

  function ExtractLog(segment: seq<Byte>): LogBlock {
    match FrameContent(segment)
    case None => LogBlock([], false)
    case Some(content) => LogBlock(Base64.DecodeTolerant(content), true)
  }

  // ---- One candidate record -----------------------------------------------

  datatype Judgement = Skip | Wait | Decided(tag: Tag, result: BuildResult)

  /** What the scan does with one marker's segment. */
  function Judge(t: Text, segment: seq<Byte>, isLast: bool, final: bool): Judgement {
    var rest := Slice(segment, |MARKER|, |segment|);
    var nl := Find(rest, NEWLINE, 0);
    if nl.None? && !final then Skip
    else
      var line := if nl.None? then rest else rest[..nl.value];
      var text := Strip(t.decode(line));
      match TagOf(text)
      case OkTag => Decided(OkTag, BuildResult(true, None, None, []))
      case FailTag =>
        var block := ExtractLog(segment);
        if block.complete || final then
          Decided(FailTag, BuildResult(false, t.rc(text), t.cmd(text), block.log))
        else if isLast then Wait
        else Skip
      case OtherTag =>
        if isLast then Decided(OtherTag, BuildResult(false, None, None, t.unrecognized(text))) else Skip
  }

  /** Where the segment of the marker at `idx` ends: at the next marker, or with the data. */
  function SegmentEnd(data: seq<Byte>, idx: nat): (end: nat)
    requires At(data, MARKER, idx)
    ensures idx + |MARKER| <= end <= |data|
  {
    match Find(data, MARKER, idx + |MARKER|)
    case None => |data|
    case Some(next) => next
  }

  predicate IsLast(data: seq<Byte>, idx: nat) {
    Find(data, MARKER, idx + |MARKER|).None?
  }

  // ---- The scan over all candidates ---------------------------------------

  datatype Hit = Hit(at: nat, tag: Tag, result: BuildResult)

  type Judging = (seq<Byte>, bool) -> Judgement

  function Judges(t: Text, final: bool): Judging {
    (segment: seq<Byte>, isLast: bool) => Judge(t, segment, isLast, final)
  }

  function Segment(data: seq<Byte>, idx: nat): (segment: seq<Byte>)
    requires At(data, MARKER, idx)
    ensures |MARKER| <= |segment|
  {
    data[idx..SegmentEnd(data, idx)]
  }

  /** Judge the markers from `pos` on, in order, until one decides or asks to wait. */
  function Scan(judge: Judging, data: seq<Byte>, pos: nat): Option<Hit>
    decreases |data| - pos
  {
    match Find(data, MARKER, pos)
    case None => None
    case Some(idx) =>
      match judge(Segment(data, idx), IsLast(data, idx))
      case Skip => Scan(judge, data, idx + |MARKER|)
      case Wait => None
      case Decided(tag, result) => Some(Hit(idx, tag, result))
  }

  function Parse(t: Text, data: seq<Byte>, final: bool): Option<BuildResult> {
    match Scan(Judges(t, final), data, 0)
    case None => None
    case Some(hit) => Some(hit.result)
  }

  /** All marker offsets from `pos` on, without overlap. */
  function Offsets(data: seq<Byte>, pos: nat): seq<nat>
    decreases |data| - pos
  {
    match Find(data, MARKER, pos)
    case None => []
    case Some(idx) => [idx] + Offsets(data, idx + |MARKER|)
  }

  method CollectOffsets(data: seq<Byte>) returns (offsets: seq<nat>)
    ensures offsets == Offsets(data, 0)
  {
    offsets := CollectFrom(data, 0);
  }

  method CollectFrom(data: seq<Byte>, start: nat) returns (offsets: seq<nat>)
    requires start <= |data|
    ensures offsets == Offsets(data, start)
  {
    offsets := [];
    ghost var all := Offsets(data, start);
    var pos := start;
    var next := Find(data, MARKER, pos);
    while next.Some?
      invariant pos <= |data| && next == Find(data, MARKER, pos)
      invariant all == offsets + Offsets(data, pos)
      decreases |data| - pos
    {
      OffsetsCons(data, all, offsets, pos);
      offsets := offsets + [next.value];
      pos := next.value + |MARKER|;
      next := Find(data, MARKER, pos);
    }
    OffsetsEnd(data, pos);
  }

  /** One offset moves from what is left to what has been collected. */
  lemma OffsetsCons(data: seq<Byte>, all: seq<nat>, offsets: seq<nat>, pos: nat)
    requires Find(data, MARKER, pos).Some? && all == offsets + Offsets(data, pos)
    ensures var idx := Find(data, MARKER, pos).value;
            all == (offsets + [idx]) + Offsets(data, idx + |MARKER|)
  {
    OffsetsUnfold(data, pos);
  }

  lemma OffsetsEnd(data: seq<Byte>, pos: nat)
    requires Find(data, MARKER, pos).None?
    ensures Offsets(data, pos) == []
  {
  }

  lemma OffsetsUnfold(data: seq<Byte>, pos: nat)
    requires Find(data, MARKER, pos).Some?
    ensures var idx := Find(data, MARKER, pos).value;
            Offsets(data, pos) == [idx] + Offsets(data, idx + |MARKER|)
  {
  }

  /** The head of the offsets is the next marker, and its segment ends at the second one. */
  lemma OffsetsStep(data: seq<Byte>, pos: nat)
    requires Offsets(data, pos) != []
    ensures var o := Offsets(data, pos);
            && Find(data, MARKER, pos) == Some(o[0])
            && o[1..] == Offsets(data, o[0] + |MARKER|)
            && (IsLast(data, o[0]) <==> |o| == 1)
            && SegmentEnd(data, o[0]) == if |o| == 1 then |data| else o[1]
  {
    var o := Offsets(data, pos);
    var tail := Offsets(data, o[0] + |MARKER|);
    assert o == [o[0]] + tail;
  }

  /** Judge the collected offsets in order. */
  method JudgeOffsets(judge: Judging, data: seq<Byte>, offsets: seq<nat>) returns (r: Option<BuildResult>)
    requires offsets == Offsets(data, 0)
    ensures r == match Scan(judge, data, 0) case None => None case Some(hit) => Some(hit.result)
  {
    ghost var from: nat := 0;
    for i := 0 to |offsets|
      invariant Offsets(data, from) == offsets[i..]
      invariant Scan(judge, data, from) == Scan(judge, data, 0)
    {
      OffsetsStep(data, from);
      var idx, isLast := offsets[i], i == |offsets| - 1;
      var segment := data[idx..(if isLast then |data| else offsets[i + 1])];
      var judgement := judge(segment, isLast);
      if judgement.Wait? {
        return None;
      } else if judgement.Decided? {
        return Some(judgement.result);
      }
      from := idx + |MARKER|;
    }
    return None;
  }

  /** The parser as it runs: collect all offsets, then judge them. */
  method ParseBuildResult(t: Text, data: seq<Byte>, final: bool) returns (r: Option<BuildResult>)
    ensures r == Parse(t, data, final)
  {
    var offsets := CollectOffsets(data);
    r := JudgeOffsets(Judges(t, final), data, offsets);
  }
}
