/** Workspace reports: begun, sampled, failed and reopened records in one stream,
    each slot within its budget and every number in fixed-width hexadecimal. */
module WorkspaceReports {
  import opened Wrappers

  const TURNS := 4_096
  const SLOTS := 15

  // ---- fixed-width numbers

  const DIGITS := "0123456789abcdef"

  /** A number takes as many places as there are digits: sixteen fill 64 bits. */
  const WIDTH: nat := |DIGITS|

  function Power(n: nat): (p: nat)
    ensures p > 0
  {
    if n == 0 then 1 else 16 * Power(n - 1)
  }

  function DigitValue(c: char): (d: nat) {
    if '0' <= c <= '9' then (c - '0') as nat else if 'a' <= c <= 'f' then (c - 'a') as nat + 10 else 16
  }

  /** Reads big-endian digits. */
  function Unhex(s: seq<char>): nat {
    if s == [] then 0 else Unhex(s[..|s| - 1]) * 16 + DigitValue(s[|s| - 1])
  }

  function Hex(value: nat, width: nat): (s: seq<char>)
    ensures |s| == width
  {
    if width == 0 then [] else Hex(value / 16, width - 1) + [DIGITS[value % 16]]
  }

  lemma {:induction false} HexBack(value: nat, width: nat)
    requires value < Power(width)
    ensures Unhex(Hex(value, width)) == value
  {
    if width > 0 {
      HexBack(value / 16, width - 1);
      var s := Hex(value, width);
      assert s[..width - 1] == Hex(value / 16, width - 1);
      assert DigitValue(DIGITS[value % 16]) == value % 16;
    }
  }

  /** Fills raw[from..to] from its end, four bits at a time. */
  method WriteHex(raw: array<char>, from: nat, to: nat, value: nat)
    requires from <= to <= raw.Length
    modifies raw
    ensures raw[from..to] == Hex(value, to - from)
    ensures forall i | 0 <= i < raw.Length && !(from <= i < to) :: raw[i] == old(raw[i])
  {
    var rest, index := value, to;
    while index > from
      invariant from <= index <= to
      invariant Hex(rest, index - from) + raw[index..to] == Hex(value, to - from)
      invariant forall i | 0 <= i < raw.Length && !(from <= i < to) :: raw[i] == old(raw[i])
    {
      ghost var low := raw[index..to];
      assert Hex(rest, index - from) == Hex(rest / 16, index - 1 - from) + [DIGITS[rest % 16]];
      index := index - 1;
      raw[index] := DIGITS[rest % 16];
      assert raw[index..to] == [DIGITS[rest % 16]] + low;
      rest := rest / 16;
    }
  }

  // ---- the records

  datatype Kind = Began | Sampled | Failed | Reopened

  datatype Record = Record(kind: Kind, producer: nat, phase: nat, sequence: nat, logical: nat, stored: nat)

  function KindLetter(k: Kind): char {
    match k
    case Began => 'B'
    case Sampled => 'S'
    case Failed => 'F'
    case Reopened => 'R'
  }

  function KindOf(c: char): Option<Kind> {
    if c == 'B' then Some(Began) else if c == 'S' then Some(Sampled) else if c == 'F' then Some(Failed)
    else if c == 'R' then Some(Reopened) else None
  }

  const UPPER := "0123456789ABCDEF"

  function UpperValue(c: char): (d: nat) {
    if '0' <= c <= '9' then (c - '0') as nat else if 'A' <= c <= 'F' then (c - 'A') as nat + 10 else 16
  }

  predicate Wide(n: nat) {
    n < 0x1_0000_0000_0000_0000
  }

  lemma WideIsPower(n: nat)
    ensures Wide(n) <==> n < Power(WIDTH)
  {
    assert Power(4) == 65536 by { assert Power(2) == 256; assert Power(3) == 4096; }
    assert Power(8) == 0x1_0000_0000 by { assert Power(5) == 16 * 65536; assert Power(6) == 256 * 65536; assert Power(7) == 4096 * 65536; }
    assert Power(12) == 65536 * 0x1_0000_0000 by {
      assert Power(9) == 16 * 0x1_0000_0000; assert Power(10) == 256 * 0x1_0000_0000; assert Power(11) == 4096 * 0x1_0000_0000;
    }
    assert Power(16) == 0x1_0000_0000_0000_0000 by {
      assert Power(13) == 16 * Power(12); assert Power(14) == 16 * Power(13); assert Power(15) == 16 * Power(14);
    }
  }

  /** Reads one framed record back; only a sample carries sizes. */
  function Decoded(text: seq<char>): Option<Record> {
    if (|text| != 26 && |text| != 60) || text[..4] != "WB1:" || text[5] != ':' || text[8] != ':' || KindOf(text[7]).None? ||
       text[|text| - 1] != '\n'
    then None
    else
      var kind := KindOf(text[7]).value;
      if kind == Sampled then
        if |text| != 60 || text[25] != ':' || text[42] != ':' then None
        else Some(Record(kind, UpperValue(text[4]), UpperValue(text[6]), Unhex(text[9..25]), Unhex(text[26..42]), Unhex(text[43..59])))
      else if |text| != 26 then None
      else Some(Record(kind, UpperValue(text[4]), UpperValue(text[6]), Unhex(text[9..25]), 0, 0))
  }

  predicate Writable(r: Record) {
    && r.producer < 16 && r.phase < 16 && Wide(r.sequence) && Wide(r.logical) && Wide(r.stored)
    && (r.kind != Sampled ==> r.logical == 0 && r.stored == 0)
  }

  function Header(r: Record): (h: seq<char>)
    requires Writable(r)
    ensures |h| == 9
  {
    ['W', 'B', '1', ':', UPPER[r.producer], ':', UPPER[r.phase], KindLetter(r.kind), ':']
  }

  function Short(h: seq<char>, sequence: seq<char>): seq<char> {
    h + (sequence + ['\n'])
  }

  function Long(h: seq<char>, sequence: seq<char>, logical: seq<char>, stored: seq<char>): seq<char> {
    h + (sequence + ([':'] + (logical + ([':'] + (stored + ['\n'])))))
  }

  /** A record's text: the header, the sequence and for a sample its sizes. */
  function Text(r: Record): seq<char>
    requires Writable(r)
  {
    if r.kind == Sampled then Long(Header(r), Hex(r.sequence, WIDTH), Hex(r.logical, WIDTH), Hex(r.stored, WIDTH))
    else Short(Header(r), Hex(r.sequence, WIDTH))
  }

  lemma LongParts(text: seq<char>, h: seq<char>, a: seq<char>, b: seq<char>, c: seq<char>)
    requires |h| == 9 && |a| == |b| == |c| == 16
    ensures text == Long(h, a, b, c) <==>
      && |text| == 60 && text[..9] == h && text[9..25] == a && text[25] == ':' && text[26..42] == b && text[42] == ':'
      && text[43..59] == c && text[59] == '\n'
  {
    var whole := Long(h, a, b, c);
    assert whole[..9] == h && whole[9..25] == a && whole[26..42] == b && whole[43..59] == c;
    if |text| == 60 {
      assert text == text[..9] + (text[9..25] + ([text[25]] + (text[26..42] + ([text[42]] + (text[43..59] + [text[59]])))));
    }
  }

  lemma ShortParts(text: seq<char>, h: seq<char>, a: seq<char>)
    requires |h| == 9 && |a| == 16
    ensures text == Short(h, a) <==> |text| == 26 && text[..9] == h && text[9..25] == a && text[25] == '\n'
  {
    var whole := Short(h, a);
    assert whole[..9] == h && whole[9..25] == a;
    if |text| == 26 { assert text == text[..9] + (text[9..25] + [text[25]]); }
  }

  lemma UpperBack(d: nat)
    requires d < 16
    ensures UpperValue(UPPER[d]) == d
  {}

  /** Every record is read back from its text. */
  lemma TextBack(r: Record)
    requires Writable(r)
    ensures Decoded(Text(r)) == Some(r)
  {
    var a, b, c := Hex(r.sequence, WIDTH), Hex(r.logical, WIDTH), Hex(r.stored, WIDTH);
    NumbersBack(r);
    UpperBack(r.producer);
    UpperBack(r.phase);
    var text, h := Text(r), Header(r);
    if r.kind == Sampled { LongParts(text, h, a, b, c); } else { ShortParts(text, h, a); }
    assert text[..4] == text[..9][..4] == "WB1:";
    assert text[4] == h[4] && text[5] == h[5] && text[6] == h[6] && text[7] == h[7] && text[8] == h[8];
  }

  lemma NumbersBack(r: Record)
    requires Writable(r)
    ensures Unhex(Hex(r.sequence, WIDTH)) == r.sequence
    ensures Unhex(Hex(r.logical, WIDTH)) == r.logical && Unhex(Hex(r.stored, WIDTH)) == r.stored
  {
    WideIsPower(r.sequence);
    WideIsPower(r.logical);
    WideIsPower(r.stored);
    HexBack(r.sequence, WIDTH);
    HexBack(r.logical, WIDTH);
    HexBack(r.stored, WIDTH);
  }

  method WriteHeader(raw: array<char>, r: Record)
    requires Writable(r) && raw.Length == 60
    modifies raw
    ensures raw[..9] == Header(r)
  {
    raw[0], raw[1], raw[2], raw[3], raw[5] := 'W', 'B', '1', ':', ':';
    raw[4], raw[6], raw[7], raw[8] := UPPER[r.producer], UPPER[r.phase], KindLetter(r.kind), ':';
  }

  method WriteSizes(raw: array<char>, r: Record)
    requires raw.Length == 60
    modifies raw
    ensures raw[..25] == old(raw[..25])
    ensures raw[25] == ':' && raw[26..42] == Hex(r.logical, WIDTH) && raw[42] == ':'
    ensures raw[43..59] == Hex(r.stored, WIDTH) && raw[59] == '\n'
  {
    raw[25], raw[42], raw[59] := ':', ':', '\n';
    WriteHex(raw, 26, 42, r.logical);
    ghost var logical := raw[26..42];
    WriteHex(raw, 43, 59, r.stored);
    assert raw[26..42] == logical;
  }

  /** Fills a 60-byte buffer and uses the first 26 of it unless it is a sample. */
  method Encode(r: Record) returns (raw: array<char>, length: nat)
    requires Writable(r)
    ensures fresh(raw) && length <= raw.Length
    ensures raw[..length] == Text(r)
  {
    raw := new char[60](_ => '0');
    WriteHeader(raw, r);
    ghost var h, a := Header(r), Hex(r.sequence, WIDTH);
    WriteHex(raw, 9, 25, r.sequence);
    assert raw[..9] == h;
    if r.kind == Sampled {
      ghost var start := raw[..25];
      assert start[..9] == raw[..9] && start[9..25] == raw[9..25];
      WriteSizes(raw, r);
      length := 60;
      assert raw[..60] == raw[..] && raw[..9] == raw[..25][..9] && raw[9..25] == raw[..25][9..25];
      LongParts(raw[..], h, a, Hex(r.logical, WIDTH), Hex(r.stored, WIDTH));
    } else {
      raw[25] := '\n';
      length := 26;
      assert raw[..26][..9] == raw[..9] && raw[..26][9..25] == raw[9..25];
      ShortParts(raw[..26], h, a);
    }
  }

  // ---- the state the mutex protects

  /** A producer's slot in a phase and how many samples it allows. */
  function SampleSlot(producer: nat, phase: nat, archive: nat): Option<(nat, nat)> {
    match (producer, phase)
    case (2, 2) => Some((7, 1))
    case (2, 3) => Some((8, 2))
    case (2, 4) => Some((9, 3))
    case (3, 5) => Some((10, 1))
    case (4, 6) => Some((11, 2))
    case (4, 7) => Some((12, 3))
    case (4, 8) => Some((13, 2))
    case (5, 8) => Some((14, 1))
    case (5, 9) => Some((0, TURNS + 1 + 4))
    case (5, 10) => Some((1, 1 + 3))
    case (5, 11) => Some((2, TURNS + 2 + 4))
    case (6, 12) => Some((5, 1))
    case (6, 13) => Some((3, TURNS + 2))
    case (6, 14) => Some((6, 2))
    case (10, 12) => if archive > 0 then Some((4, archive)) else None
    case (11, 12) => if archive > 0 then Some((4, archive)) else None
    case _ => None
  }

  /** `stream` is what was written so far, whole records only. */
  datatype Reports = Reports(
    producer: nat, archive: nat, phase: nat, sequence: nat, counts: seq<nat>, pending: bool, physical: bool, marker: bool,
    err: bool, stream: seq<Record>)

  function Opened(producer: nat, archive: nat): Reports {
    Reports(producer, archive, 0, 0, seq(SLOTS, _ => 0), false, false, false, false, [])
  }

  function Written(r: Reports, kind: Kind, logical: nat, stored: nat, ok: bool): Reports {
    if ok then r.(stream := r.stream + [Record(kind, r.producer, r.phase, r.sequence, logical, stored)]) else r.(err := true)
  }

  predicate MayBegin(r: Reports, phase: nat)
    requires |r.counts| == SLOTS
  {
    !r.err && !r.pending && phase >= r.phase &&
    match SampleSlot(r.producer, phase, r.archive)
    case None => false
    case Some((slot, maximum)) =>
      && slot < SLOTS && r.counts[slot] < maximum
      && !(r.producer == 2 && phase == 4 && r.counts[slot] == 2 && !r.physical)
      && !(r.producer == 4 && phase == 6 && r.counts[slot] == 1 && !r.marker)
  }

  /** `bound` says the current state belongs to the process that opened the
      report; `ok` whether the sink takes the record. */
  function Begun(r: Reports, phase: nat, bound: bool, ok: bool): Reports
    requires |r.counts| == SLOTS
  {
    if !bound || !MayBegin(r, phase) then r.(err := true)
    else
      var slot := SampleSlot(r.producer, phase, r.archive).value.0;
      Written(r.(phase := phase, pending := true, counts := r.counts[slot := r.counts[slot] + 1], sequence := r.sequence + 1),
              Began, 0, 0, ok)
  }

  function Completed(r: Reports, logical: nat, stored: nat, ok: bool): Reports {
    if r.err || !r.pending then r.(err := true)
    else if ok then Written(r, Sampled, logical, stored, true).(pending := false) else r.(err := true)
  }

  function FailedReport(r: Reports, ok: bool): Reports {
    (if r.pending && !r.err then Written(r, Failed, 0, 0, ok) else r).(err := true)
  }

  predicate MayReopen(r: Reports)
    requires |r.counts| == SLOTS
  {
    && !r.err && !r.pending
    && ((r.producer == 2 && !r.physical && r.phase == 4 && r.sequence == 5 && r.counts[7] == 1 && r.counts[8] == 2 && r.counts[9] == 2)
        || (r.producer == 4 && !r.marker && r.phase == 6 && r.sequence == 1 && r.counts[11] == 1))
  }

  function ReopenedReport(r: Reports, ok: bool): Reports
    requires |r.counts| == SLOTS
  {
    if !MayReopen(r) || !ok then r.(err := true)
    else Written(if r.producer == 2 then r.(physical := true) else r.(marker := true), Reopened, 0, 0, true)
  }

  datatype Call =
    | Begin(phase: nat, bound: bool, ok: bool)
    | Complete(logical: nat, stored: nat, ok: bool)
    | Fail(ok: bool)
    | Reopen(ok: bool)

  function Called(r: Reports, c: Call): (n: Reports)
    requires |r.counts| == SLOTS
    ensures |n.counts| == SLOTS && n.producer == r.producer && n.archive == r.archive
  {
    match c
    case Begin(phase, bound, ok) => Begun(r, phase, bound, ok)
    case Complete(logical, stored, ok) => Completed(r, logical, stored, ok)
    case Fail(ok) => FailedReport(r, ok)
    case Reopen(ok) => ReopenedReport(r, ok)
  }

  function After(producer: nat, archive: nat, calls: seq<Call>): (r: Reports)
    ensures |r.counts| == SLOTS && r.producer == producer && r.archive == archive
  {
    if calls == [] then Opened(producer, archive)
    else Called(After(producer, archive, calls[..|calls| - 1]), calls[|calls| - 1])
  }

  // ---- the language of the stream

  /** After k pairs, inside the k-th, past its failure, or outside the language. */
  datatype Scan = Between(pairs: nat, phase: nat, reopened: bool) | Inside(pairs: nat, phase: nat, reopened: bool) | Over | Bad

  predicate ReopensAt(producer: nat, pairs: nat, phase: nat) {
    (producer == 2 && pairs == 5 && phase == 4) || (producer == 4 && pairs == 1 && phase == 6)
  }

  function Next(producer: nat, scan: Scan, r: Record): Scan {
    if r.producer != producer then Bad
    else
      match scan
      case Between(k, phase, reopened) =>
        if r.kind == Began && r.sequence == k + 1 && r.phase >= phase then Inside(k + 1, r.phase, reopened)
        else if r.kind == Reopened && r.sequence == k && r.phase == phase && !reopened && ReopensAt(producer, k, phase)
        then Between(k, phase, true)
        else Bad
      case Inside(k, phase, reopened) =>
        if r.sequence != k || r.phase != phase then Bad
        else if r.kind == Sampled then Between(k, phase, reopened)
        else if r.kind == Failed then Over
        else Bad
      case _ => Bad
  }

  function Scanned(producer: nat, stream: seq<Record>): Scan {
    if stream == [] then Between(0, 0, false)
    else Next(producer, Scanned(producer, stream[..|stream| - 1]), stream[|stream| - 1])
  }

  function Count(stream: seq<Record>, kind: Kind): nat {
    if stream == [] then 0
    else Count(stream[..|stream| - 1], kind) + if stream[|stream| - 1].kind == kind then 1 else 0
  }

  /** In the language every begun record but the last has its sample next, the
      last may have its failure, and at most one reopened record stands between
      two pairs, where it belongs. */
  lemma {:induction false} ScanCounts(producer: nat, stream: seq<Record>)
    requires Scanned(producer, stream) != Bad
    ensures Count(stream, Failed) == (if Scanned(producer, stream).Over? then 1 else 0)
    ensures Count(stream, Sampled) == Count(stream, Began) - (if Scanned(producer, stream).Between? then 0 else 1)
    ensures !Scanned(producer, stream).Over? ==> Count(stream, Began) == Scanned(producer, stream).pairs
    ensures Count(stream, Reopened) <= 1
    ensures !Scanned(producer, stream).Over? ==>
      Count(stream, Reopened) == (if Scanned(producer, stream).reopened then 1 else 0)
  {
    if stream != [] { ScanCounts(producer, stream[..|stream| - 1]); }
  }

  // ---- what every order of calls keeps

  function Total(counts: seq<nat>): nat {
    if counts == [] then 0 else counts[0] + Total(counts[1..])
  }

  lemma {:induction false} TotalUpdate(counts: seq<nat>, i: nat, v: nat)
    requires i < |counts|
    ensures Total(counts[i := v]) + counts[i] == Total(counts) + v
  {
    if i == 0 {
      assert counts[i := v][1..] == counts[1..];
    } else {
      TotalUpdate(counts[1..], i - 1, v);
      assert counts[i := v][1..] == counts[1..][i - 1 := v];
    }
  }

  lemma {:induction false} ZeroTotal(counts: seq<nat>)
    requires forall i | 0 <= i < |counts| :: counts[i] == 0
    ensures Total(counts) == 0
  {
    if counts != [] { ZeroTotal(counts[1..]); }
  }

  ghost predicate InBudget(r: Reports) {
    && |r.counts| == SLOTS && r.sequence == Total(r.counts)
    && (forall phase :: var slot := SampleSlot(r.producer, phase, r.archive);
          slot.Some? ==> slot.value.0 < SLOTS && r.counts[slot.value.0] <= slot.value.1)
  }

  ghost predicate InLanguage(r: Reports) {
    var scan := Scanned(r.producer, r.stream);
    && scan != Bad
    && (r.physical ==> r.producer == 2) && (r.marker ==> r.producer == 4)
    && (!r.err && r.pending ==> scan == Inside(r.sequence, r.phase, r.physical || r.marker))
    && (!r.err && !r.pending ==> scan == Between(r.sequence, r.phase, r.physical || r.marker))
  }

  lemma SlotsApart(producer: nat, archive: nat, p: nat, q: nat)
    ensures var a, b := SampleSlot(producer, p, archive), SampleSlot(producer, q, archive);
      a.Some? && b.Some? && a.value.0 == b.value.0 ==> p == q
  {}

  lemma BudgetKeeps(r: Reports, c: Call)
    requires InBudget(r)
    ensures InBudget(Called(r, c))
  {
    if c.Begin? && c.bound && MayBegin(r, c.phase) {
      var slot := SampleSlot(r.producer, c.phase, r.archive).value.0;
      TotalUpdate(r.counts, slot, r.counts[slot] + 1);
      forall phase | SampleSlot(r.producer, phase, r.archive).Some?
        ensures var s := SampleSlot(r.producer, phase, r.archive).value; Called(r, c).counts[s.0] <= s.1
      {
        SlotsApart(r.producer, r.archive, c.phase, phase);
      }
    }
  }

  lemma LanguageKeeps(r: Reports, c: Call)
    requires |r.counts| == SLOTS && InLanguage(r)
    ensures InLanguage(Called(r, c)) && (r.err ==> Called(r, c).stream == r.stream && Called(r, c).err)
  {
    var n := Called(r, c);
    if |n.stream| == |r.stream| + 1 {
      assert n.stream[..|r.stream|] == r.stream;
    }
  }

  /** Whatever is called in whatever order, the stream stays in the language,
      every slot within its budget, and nothing follows a failure. */
  lemma {:induction false} StreamKeeps(producer: nat, archive: nat, calls: seq<Call>)
    ensures InLanguage(After(producer, archive, calls)) && InBudget(After(producer, archive, calls))
  {
    if calls == [] {
      ZeroTotal(After(producer, archive, calls).counts);
    } else {
      var n := |calls| - 1;
      StreamKeeps(producer, archive, calls[..n]);
      BudgetKeeps(After(producer, archive, calls[..n]), calls[n]);
      LanguageKeeps(After(producer, archive, calls[..n]), calls[n]);
    }
  }

  const ARCHIVES := 0x1_0000_0000

  lemma {:induction false} TotalBound(counts: seq<nat>, most: nat)
    requires forall i | 0 <= i < |counts| :: counts[i] <= most
    ensures Total(counts) <= |counts| * most
  {
    if counts != [] {
      TotalBound(counts[1..], most);
      assert |counts| * most == |counts[1..]| * most + most;
    }
  }

  /** What makes every record of the stream writable. */
  ghost predicate Bounded(r: Reports) {
    && |r.counts| == SLOTS && r.sequence == Total(r.counts) && r.phase <= 14
    && (forall i | 0 <= i < SLOTS :: r.counts[i] <= TURNS + 6 + r.archive)
    && (forall record | record in r.stream :: Writable(record))
  }

  lemma SlotMaximum(producer: nat, phase: nat, archive: nat)
    ensures SampleSlot(producer, phase, archive).Some? ==>
      phase <= 14 && SampleSlot(producer, phase, archive).value.0 < SLOTS &&
      SampleSlot(producer, phase, archive).value.1 <= TURNS + 6 + archive
  {}

  lemma CountsKeep(r: Reports, c: Call)
    requires |r.counts| == SLOTS && r.sequence == Total(r.counts) && r.phase <= 14
    requires forall i | 0 <= i < SLOTS :: r.counts[i] <= TURNS + 6 + r.archive
    ensures var n := Called(r, c);
      && n.sequence == Total(n.counts) && n.phase <= 14 && n.producer == r.producer && n.archive == r.archive
      && forall i | 0 <= i < SLOTS :: n.counts[i] <= TURNS + 6 + r.archive
  {
    if c.Begin? && c.bound && MayBegin(r, c.phase) {
      SlotMaximum(r.producer, c.phase, r.archive);
      var slot := SampleSlot(r.producer, c.phase, r.archive).value.0;
      TotalUpdate(r.counts, slot, r.counts[slot] + 1);
    }
  }

  /** A call adds at most one record, of the state it leaves. */
  lemma CallAdds(r: Reports, c: Call)
    requires |r.counts| == SLOTS
    ensures var n := Called(r, c);
      || n.stream == r.stream
      || (exists kind :: kind != Sampled && n.stream == r.stream + [Record(kind, r.producer, n.phase, n.sequence, 0, 0)])
      || (c.Complete? && n.stream == r.stream + [Record(Sampled, r.producer, n.phase, n.sequence, c.logical, c.stored)])
  {}

  lemma BoundedKeeps(r: Reports, c: Call)
    requires Bounded(r) && r.producer < 16 && r.archive < ARCHIVES
    requires c.Complete? ==> Wide(c.logical) && Wide(c.stored)
    ensures Bounded(Called(r, c))
  {
    CountsKeep(r, c);
    CallAdds(r, c);
    var n := Called(r, c);
    TotalBound(n.counts, TURNS + 6 + r.archive);
  }

  /** Every record ever written can be read back: its numbers fit. */
  lemma {:induction false} RecordsReadBack(producer: nat, archive: nat, calls: seq<Call>)
    requires producer < 16 && archive < ARCHIVES
    requires forall c | c in calls && c.Complete? :: Wide(c.logical) && Wide(c.stored)
    ensures Bounded(After(producer, archive, calls))
    ensures forall record | record in After(producer, archive, calls).stream :: Decoded(Text(record)) == Some(record)
  {
    if calls == [] {
      ZeroTotal(After(producer, archive, calls).counts);
    } else {
      var n := |calls| - 1;
      assert calls == calls[..n] + [calls[n]];
      RecordsReadBack(producer, archive, calls[..n]);
      BoundedKeeps(After(producer, archive, calls[..n]), calls[n]);
    }
    forall record | record in After(producer, archive, calls).stream ensures Decoded(Text(record)) == Some(record) {
      TextBack(record);
    }
  }

  // ---- the same calls, in place

  class Reporter {
    const producer: nat
    const archive: nat
    var phase: nat
    var sequence: nat
    var counts: seq<nat>
    var pending: bool
    var physical: bool
    var marker: bool
    var err: bool
    ghost var stream: seq<Record>

    ghost function View(): Reports
      reads this
    {
      Reports(producer, archive, phase, sequence, counts, pending, physical, marker, err, stream)
    }

    constructor (producer: nat, archive: nat)
      ensures View() == Opened(producer, archive)
    {
      this.producer, this.archive, phase, sequence := producer, archive, 0, 0;
      counts := seq(SLOTS, _ => 0);
      pending, physical, marker, err, stream := false, false, false, false, [];
    }

    /** The sink may refuse any record, and after one nothing is written. */
    method Write(kind: Kind, logical: nat, stored: nat) returns (ok: bool)
      requires !err
      modifies this
      ensures View() == Written(old(View()), kind, logical, stored, ok)
    {
      ok := *;
      if ok { stream := stream + [Record(kind, producer, phase, sequence, logical, stored)]; } else { err := true; }
    }

    method Admits(current: nat) returns (ok: bool)
      requires |counts| == SLOTS
      ensures ok <==> MayBegin(View(), current)
    {
      var slot := SampleSlot(producer, current, archive);
      if err || pending || slot.None? || current < phase || slot.value.0 >= SLOTS { return false; }
      var count := counts[slot.value.0];
      ok := !(count >= slot.value.1 || (producer == 2 && current == 4 && count == 2 && !physical) ||
              (producer == 4 && current == 6 && count == 1 && !marker));
    }

    method BeginSample(current: nat, bound: bool) returns (ghost ok: bool)
      requires |counts| == SLOTS
      modifies this
      ensures View() == Begun(old(View()), current, bound, ok)
    {
      ok := false;
      var admitted := Admits(current);
      if !bound || !admitted {
        err := true;
        return;
      }
      var slot := SampleSlot(producer, current, archive);
      phase, pending := current, true;
      counts := counts[slot.value.0 := counts[slot.value.0] + 1];
      sequence := sequence + 1;
      ok := Write(Began, 0, 0);
    }

    method CompleteSample(logical: nat, stored: nat) returns (ghost ok: bool)
      modifies this
      ensures View() == Completed(old(View()), logical, stored, ok)
    {
      ok := false;
      if err || !pending {
        err := true;
        return;
      }
      var written := Write(Sampled, logical, stored);
      ok := written;
      if written { pending := false; }
    }

    method FailSample() returns (ghost ok: bool)
      modifies this
      ensures View() == FailedReport(old(View()), ok)
    {
      ok := false;
      if pending && !err { ok := Write(Failed, 0, 0); }
      err := true;
    }

    method PhysicalReopenReady() returns (ghost ok: bool)
      requires |counts| == SLOTS && producer == 2
      modifies this
      ensures View() == ReopenedReport(old(View()), ok)
    {
      ok := false;
      if err || pending || physical || phase != 4 || sequence != 5 || counts[7] != 1 || counts[8] != 2 || counts[9] != 2 {
        err := true;
        return;
      }
      var written := Write(Reopened, 0, 0);
      ok := written;
      if written { physical := true; }
    }

    method MarkerReopenReady() returns (ghost ok: bool)
      requires |counts| == SLOTS && producer == 4
      modifies this
      ensures View() == ReopenedReport(old(View()), ok)
    {
      ok := false;
      if err || pending || marker || phase != 6 || sequence != 1 || counts[11] != 1 {
        err := true;
        return;
      }
      var written := Write(Reopened, 0, 0);
      ok := written;
      if written { marker := true; }
    }
  }
}
