/** The message envelope (wire/wire.go): one part per private message, framed as text. */
module Wire {
  import opened Wrappers
  import opened Bytes
  import Text
  import Decimal
  import Base64

  const VERSION := 1
  const DEFAULT_CHUNK_SIZE := 200 * 1024
  const MAX_PARTS := 64

  /** One parsed envelope. Exp is in unix seconds; 0 means none. */
  datatype Part = Part(sid: string, mid: string, number: int, total: int, exp: int, chunk: Blob)

  datatype EncodeResult = Encoded(parts: seq<string>) | InvalidSid | EmptyPayload | TooLarge

  predicate IsHex(c: char) {
    '0' <= c <= '9' || 'a' <= c <= 'f'
  }

  /** idRE: one to thirty-two lower-case hex digits. */
  predicate ValidId(s: string) {
    1 <= |s| <= 32 && forall i :: 0 <= i < |s| ==> IsHex(s[i])
  }

  // ---------------------------------------------------------------------------------------------
  // Writing

  function Fields(sid: string, mid: string, number: int, total: int, exp: int): seq<string> {
    ["v" + "=" + Decimal.Print(VERSION),
     "sid" + "=" + sid,
     "mid" + "=" + mid,
     "seq" + "=" + (Decimal.Print(number) + "/" + Decimal.Print(total)),
     "exp" + "=" + Decimal.Print(exp)]
  }

  function Format(p: Part): string {
    "--mcp[" + Text.Join(Fields(p.sid, p.mid, p.number, p.total, p.exp), ',') + "]--" + Base64.Encode(p.chunk)
  }

  function EffectiveChunk(chunkSize: int): (size: int)
    ensures 0 < size
  {
    if chunkSize <= 0 then DEFAULT_CHUNK_SIZE else chunkSize
  }

  function Total(payload: Blob, size: int): int
    requires 0 < size
  {
    (|payload| + size - 1) / size
  }

  function AtMost(n: int, bound: int): int {
    if n > bound then bound else n
  }

  /** The i-th slice of the payload; the last one may be shorter. */
  function Slice(payload: Blob, size: int, i: nat): Blob
    requires 0 < size
  {
    MulMonotone(0, i, size);
    payload[AtMost(i * size, |payload|)..AtMost(i * size + size, |payload|)]
  }

  function PartOf(sid: string, mid: string, payload: Blob, exp: int, size: int, i: nat): Part
    requires 0 < size
  {
    Part(sid, mid, i + 1, Total(payload, size), exp, Slice(payload, size, i))
  }

  lemma SliceBounds(payload: Blob, size: int, i: int)
    requires 0 < size && 0 <= i
    ensures i < Total(payload, size) ==> i * size < |payload|
    ensures i >= Total(payload, size) ==> i * size >= |payload|
    ensures (i + 1) * size == i * size + size
  {
    var total := Total(payload, size);
    assert total * size >= |payload| && (total - 1) * size < |payload| by {
      assert |payload| + size - 1 == total * size + (|payload| + size - 1) % size;
      assert (total - 1) * size == total * size - size;
    }
    if i < total {
      MulMonotone(i, total - 1, size);
    } else {
      MulMonotone(total, i, size);
    }
  }

  /** Every slice but the last is full. */
  lemma SliceIsFull(payload: Blob, size: int, i: nat)
    requires 0 < size && i + 1 < Total(payload, size)
    ensures |Slice(payload, size, i)| == size && 0 <= i * size <= i * size + size <= |payload|
    ensures Slice(payload, size, i) == payload[i * size..i * size + size]
  {
    SliceBounds(payload, size, i + 1);
    SliceBounds(payload, size, i);
    MulMonotone(0, i, size);
  }

  /** There are just enough slices to cover the payload. */
  lemma TotalBounds(payload: Blob, size: int)
    requires 0 < size && payload != []
    ensures 1 <= Total(payload, size)
    ensures (Total(payload, size) - 1) * size < |payload| <= Total(payload, size) * size
    ensures Total(payload, size) > 64 <==> |payload| > 64 * size
  {
    var total := Total(payload, size);
    SliceBounds(payload, size, 64);
    SliceBounds(payload, size, 0);
    SliceBounds(payload, size, total - 1);
    SliceBounds(payload, size, total);
  }

  lemma MulMonotone(a: int, b: int, c: int)
    requires a <= b && 0 < c
    ensures a * c <= b * c
  {
  }

  ghost predicate IsPart(text: string, sid: string, mid: string, payload: Blob, exp: int, size: int, i: nat)
    requires 0 < size
  {
    text == Format(PartOf(sid, mid, payload, exp, size, i))
  }

  lemma FormatsPart(sid: string, mid: string, payload: Blob, exp: int, size: int, i: int, end: int)
    requires 0 < size && 0 <= i < Total(payload, size)
    requires end == if i * size + size > |payload| then |payload| else i * size + size
    ensures 0 <= i * size <= end <= |payload|
    ensures IsPart(Format(Part(sid, mid, i + 1, Total(payload, size), exp, payload[i * size..end])),
                   sid, mid, payload, exp, size, i)
  {
    SliceBounds(payload, size, i);
    MulMonotone(0, i, size);
  }

  ghost predicate EncodesTo(parts: seq<string>, sid: string, mid: string, payload: Blob, exp: int, size: int)
    requires 0 < size
  {
    && |parts| == Total(payload, size)
    && forall i :: 0 <= i < |parts| ==> IsPart(parts[i], sid, mid, payload, exp, size, i)
  }

  /** mid is the fresh id NewID would draw; exp is 0 for no deadline. */
  method Encode(sid: string, payload: Blob, exp: int, chunkSize: int, mid: string) returns (r: EncodeResult)
    ensures var valid := 1 <= |sid| <= 32 && forall i :: 0 <= i < |sid| ==>
              '0' <= sid[i] <= '9' || 'a' <= sid[i] <= 'f';
            var size := if chunkSize <= 0 then 204_800 else chunkSize;
            && (r == InvalidSid <==> !valid)
            && (r == EmptyPayload <==> valid && |payload| == 0)
            && (r == TooLarge <==> valid && |payload| > 64 * size)
            && (r.Encoded? ==> valid && 0 < |r.parts| <= 64
                               && EncodesTo(r.parts, sid, mid, payload, exp, size))
  {
    if !ValidId(sid) {
      return InvalidSid;
    }
    var size := EffectiveChunk(chunkSize);
    if |payload| == 0 {
      return EmptyPayload;
    }
    var total := Total(payload, size);
    TotalBounds(payload, size);
    if total > MAX_PARTS {
      return TooLarge;
    }
    SliceBounds(payload, size, 0);
    var out := [];
    var i := 0;
    while i < total
      invariant 0 <= i <= total && |out| == i
      invariant forall j :: 0 <= j < i ==> IsPart(out[j], sid, mid, payload, exp, size, j)
    {
      var start := i * size;
      var end := start + size;
      if end > |payload| {
        end := |payload|;
      }
      FormatsPart(sid, mid, payload, exp, size, i, end);
      out := out + [Format(Part(sid, mid, i + 1, total, exp, payload[start..end]))];
      i := i + 1;
    }
    r := Encoded(out);
  }

  // ---------------------------------------------------------------------------------------------
  // Reading

  /** \s of the payload alphabet. */
  predicate IsBodySpace(c: char) {
    c == '\t' || c == '\n' || c == '\U{0C}' || c == '\r' || c == ' '
  }

  predicate IsBody(s: string) {
    forall i :: 0 <= i < |s| ==> Base64.IsBase64Char(s[i]) || s[i] == '=' || IsBodySpace(s[i])
  }

  /** partRE: the header between the brackets, and the payload text. */
  function MatchPart(text: string): Option<(string, string)> {
    if |text| < 6 || text[..6] != "--mcp[" then None
    else match Text.Cut(text[6..], ']')
         case None => None
         case Some((header, rest)) =>
           if |rest| >= 2 && rest[..2] == "--" && IsBody(rest[2..]) then Some((header, rest[2..])) else None
  }

  datatype Header = Header(version: int, sid: string, mid: string, number: int, total: int, exp: int)

  /** One key=value field; later fields overwrite earlier ones and unknown keys are tolerated. */
  function ReadField(h: Header, kv: string): Option<Header> {
    match Text.Cut(kv, '=')
    case None => None
    case Some((k, v)) =>
      if k == "v" then
        var n := Decimal.Read(v);
        if n.None? then None else Some(h.(version := n.value))
      else if k == "sid" then
        if ValidId(v) then Some(h.(sid := v)) else None
      else if k == "mid" then
        if ValidId(v) then Some(h.(mid := v)) else None
      else if k == "seq" then
        match Text.Cut(v, '/')
        case None => None
        case Some((number, total)) =>
          var n, t := Decimal.Read(number), Decimal.Read(total);
          if n.None? || t.None? then None else Some(h.(number := n.value, total := t.value))
      else if k == "exp" then
        var n := Decimal.Read(v);
        if n.None? then None else Some(h.(exp := n.value))
      else Some(h)
  }

  function ReadFields(kvs: seq<string>): Option<Header> {
    if kvs == [] then Some(Header(0, "", "", 0, 0, 0))
    else
      var h := ReadFields(kvs[..|kvs| - 1]);
      if h.None? then None else ReadField(h.value, kvs[|kvs| - 1])
  }

  predicate Acceptable(h: Header) {
    && h.version == VERSION && h.sid != "" && h.mid != ""
    && 1 <= h.number <= h.total <= MAX_PARTS
  }

  function Parsed(text: string): Option<Part> {
    var m := MatchPart(Text.TrimSpace(text));
    if m.None? then None
    else
      var h := ReadFields(Text.Split(m.value.0, ','));
      if h.None? || !Acceptable(h.value) then None
      else
        var chunk := Base64.Decode(Text.WithoutSpace(m.value.1));
        if chunk.None? || chunk.value == [] then None
        else Some(Part(h.value.sid, h.value.mid, h.value.number, h.value.total, h.value.exp, chunk.value))
  }

  method Parse(text: string) returns (p: Option<Part>)
    ensures p == Parsed(text)
  {
    var m := MatchPart(Text.TrimSpace(text));
    if m.None? {
      return None;
    }
    var kvs := Text.Split(m.value.0, ',');
    var h := Header(0, "", "", 0, 0, 0);
    var i := 0;
    while i < |kvs|
      invariant 0 <= i <= |kvs| && ReadFields(kvs[..i]) == Some(h)
    {
      assert kvs[..i + 1][..i] == kvs[..i];
      var step := ReadField(h, kvs[i]);
      if step.None? {
        NoRecovery(kvs, i + 1);
        return None;
      }
      h := step.value;
      i := i + 1;
    }
    assert kvs[..i] == kvs;
    if !Acceptable(h) {
      return None;
    }
    var chunk := Base64.Decode(Text.WithoutSpace(m.value.1));
    if chunk.None? || |chunk.value| == 0 {
      return None;
    }
    p := Some(Part(h.sid, h.mid, h.number, h.total, h.exp, chunk.value));
  }

  /** A field that does not read spoils the header. */
  lemma {:induction false} NoRecovery(kvs: seq<string>, i: nat)
    requires i <= |kvs| && ReadFields(kvs[..i]).None?
    ensures ReadFields(kvs).None?
    decreases |kvs| - i
  {
    if i < |kvs| {
      assert kvs[..i + 1][..i] == kvs[..i];
      NoRecovery(kvs, i + 1);
    } else {
      assert kvs[..i] == kvs;
    }
  }

  // ---------------------------------------------------------------------------------------------
  // Round trip

  /** What Parse guarantees of every part it returns. */
  ghost predicate WellFormed(p: Part) {
    && ValidId(p.sid) && ValidId(p.mid) && 1 <= p.number <= p.total <= MAX_PARTS
    && Decimal.MIN_INT64 <= p.exp <= Decimal.MAX_INT64 && p.chunk != []
  }

  predicate Plain(s: string) {
    forall i :: 0 <= i < |s| ==> IsHex(s[i]) || s[i] == '-'
  }

  lemma PrintedPlain(n: int)
    ensures Plain(Decimal.Print(n)) && Decimal.Print(n) != ""
  {
    Decimal.PrintedChars(n);
  }

  lemma FieldReads(k: string, v: string)
    requires '=' !in k
    ensures Text.Cut(k + "=" + v, '=') == Some((k, v))
  {
    Text.CutAt(k, '=', v);
  }

  lemma {:induction false} ReadAppend(kvs: seq<string>, kv: string)
    requires ReadFields(kvs).Some?
    ensures ReadFields(kvs + [kv]) == ReadField(ReadFields(kvs).value, kv)
  {
    assert (kvs + [kv])[..|kvs|] == kvs;
  }

  lemma IdFieldsRead(sid: string, mid: string)
    requires ValidId(sid) && ValidId(mid)
    ensures ReadFields(["v" + "=" + Decimal.Print(VERSION)] + ["sid" + "=" + sid] + ["mid" + "=" + mid])
            == Some(Header(VERSION, sid, mid, 0, 0, 0))
  {
    var f := ["v" + "=" + Decimal.Print(VERSION)];
    Decimal.PrintReads(VERSION);
    FieldReads("v", Decimal.Print(VERSION));
    FieldReads("sid", sid);
    FieldReads("mid", mid);
    assert [] + f == f;
    ReadAppend([], f[0]);
    ReadAppend(f, "sid" + "=" + sid);
    ReadAppend(f + ["sid" + "=" + sid], "mid" + "=" + mid);
  }

  lemma CountFieldReads(h: Header, number: int, total: int)
    requires Decimal.MIN_INT64 <= number <= Decimal.MAX_INT64 && Decimal.MIN_INT64 <= total <= Decimal.MAX_INT64
    ensures ReadField(h, "seq" + "=" + (Decimal.Print(number) + "/" + Decimal.Print(total)))
            == Some(h.(number := number, total := total))
  {
    var n, t := Decimal.Print(number), Decimal.Print(total);
    Decimal.PrintReads(number);
    Decimal.PrintReads(total);
    PrintedPlain(number);
    Text.CutAt(n, '/', t);
    FieldReads("seq", n + "/" + t);
  }

  lemma ExpFieldReads(h: Header, exp: int)
    requires Decimal.MIN_INT64 <= exp <= Decimal.MAX_INT64
    ensures ReadField(h, "exp" + "=" + Decimal.Print(exp)) == Some(h.(exp := exp))
  {
    Decimal.PrintReads(exp);
    FieldReads("exp", Decimal.Print(exp));
  }

  lemma FieldsRead(p: Part)
    requires WellFormed(p)
    ensures ReadFields(Fields(p.sid, p.mid, p.number, p.total, p.exp))
            == Some(Header(VERSION, p.sid, p.mid, p.number, p.total, p.exp))
  {
    var ids := ["v" + "=" + Decimal.Print(VERSION)] + ["sid" + "=" + p.sid] + ["mid" + "=" + p.mid];
    var count := "seq" + "=" + (Decimal.Print(p.number) + "/" + Decimal.Print(p.total));
    var exp := "exp" + "=" + Decimal.Print(p.exp);
    IdFieldsRead(p.sid, p.mid);
    CountFieldReads(Header(VERSION, p.sid, p.mid, 0, 0, 0), p.number, p.total);
    ReadAppend(ids, count);
    ExpFieldReads(Header(VERSION, p.sid, p.mid, p.number, p.total, 0), p.exp);
    ReadAppend(ids + [count], exp);
    assert Fields(p.sid, p.mid, p.number, p.total, p.exp) == ids + [count] + [exp];
  }

  /** No field contains a comma or a closing bracket. */
  lemma FieldsClean(p: Part)
    requires WellFormed(p)
    ensures var fs := Fields(p.sid, p.mid, p.number, p.total, p.exp);
            forall i :: 0 <= i < 5 ==> ',' !in fs[i] && ']' !in fs[i]
  {
    PrintedPlain(VERSION);
    PrintedPlain(p.number);
    PrintedPlain(p.total);
    PrintedPlain(p.exp);
  }

  lemma {:induction false} JoinAvoids(fields: seq<string>, c: char, d: char)
    requires fields != [] && c != d && forall i :: 0 <= i < |fields| ==> d !in fields[i]
    ensures d !in Text.Join(fields, c)
  {
    if |fields| > 1 {
      JoinAvoids(fields[1..], c, d);
    }
  }

  /** A framed header and payload text are found again. */
  lemma FrameMatches(header: string, b64: string)
    requires ']' !in header && b64 != "" && Base64.InAlphabet(b64)
    ensures var text := "--mcp[" + header + "]--" + b64;
            Text.TrimSpace(text) == text && MatchPart(text) == Some((header, b64))
  {
    var text, rest := "--mcp[" + header + "]--" + b64, "--" + b64;
    assert text[0] == '-' && text[|text| - 1] == b64[|b64| - 1];
    Text.NothingToTrim(text);
    assert text[..6] == "--mcp[" && text[6..] == header + "]" + rest;
    Text.CutAt(header, ']', rest);
    assert rest[..2] == "--" && rest[2..] == b64;
  }

  lemma HeaderReads(p: Part)
    requires WellFormed(p)
    ensures var header := Text.Join(Fields(p.sid, p.mid, p.number, p.total, p.exp), ',');
            && ']' !in header
            && ReadFields(Text.Split(header, ',')) == Some(Header(VERSION, p.sid, p.mid, p.number, p.total, p.exp))
  {
    var fs := Fields(p.sid, p.mid, p.number, p.total, p.exp);
    FieldsClean(p);
    JoinAvoids(fs, ',', ']');
    Text.SplitJoin(fs, ',');
    FieldsRead(p);
  }

  /** A framed text reads as what its header and its payload text read as. */
  lemma FrameParses(header: string, h: Header, chunk: Blob)
    requires ']' !in header && ReadFields(Text.Split(header, ',')) == Some(h) && Acceptable(h) && chunk != []
    ensures Parsed("--mcp[" + header + "]--" + Base64.Encode(chunk))
         == Some(Part(h.sid, h.mid, h.number, h.total, h.exp, chunk))
  {
    var b64 := Base64.Encode(chunk);
    Base64.EncodedShape(chunk);
    FrameMatches(header, b64);
    Text.NothingToStrip(b64);
    Base64.EncodeDecodes(chunk);
  }

  /** Parsing a formatted part gives the part back. */
  lemma FormatParses(p: Part)
    requires WellFormed(p)
    ensures Parsed(Format(p)) == Some(p)
  {
    HeaderReads(p);
    FrameParses(Text.Join(Fields(p.sid, p.mid, p.number, p.total, p.exp), ','),
                Header(VERSION, p.sid, p.mid, p.number, p.total, p.exp), p.chunk);
  }

  /** The framed text, spelled out. */
  lemma FormatIs(p: Part)
    ensures Format(p) == "--mcp[" + ("v=1" + "," + ("sid=" + p.sid + "," + ("mid=" + p.mid + "," + (
                           "seq=" + (Decimal.Print(p.number) + "/" + Decimal.Print(p.total)) + "," + (
                           "exp=" + Decimal.Print(p.exp)))))) + "]--" + Base64.Encode(p.chunk)
  {
    var fs := Fields(p.sid, p.mid, p.number, p.total, p.exp);
    assert "v" + "=" + Decimal.Print(1) == "v=1" && "sid" + "=" == "sid=" && "mid" + "=" == "mid=";
    assert "seq" + "=" == "seq=" && "exp" + "=" == "exp=";
    assert fs[1..][1..] == fs[2..] && fs[2..][1..] == fs[3..] && fs[3..][1..] == fs[4..] && fs[4..] == [fs[4]];
    assert Text.Join(fs[3..], ',') == fs[3] + "," + fs[4];
    assert Text.Join(fs[2..], ',') == fs[2] + "," + Text.Join(fs[3..], ',');
    assert Text.Join(fs[1..], ',') == fs[1] + "," + Text.Join(fs[2..], ',');
    assert Text.Join(fs, ',') == fs[0] + "," + Text.Join(fs[1..], ',');
  }

  /** A field with another name changes nothing. */
  lemma UnknownFieldIsIgnored(kvs: seq<string>, k: string, v: string)
    requires '=' !in k && k != "v" && k != "sid" && k != "mid" && k != "seq" && k != "exp"
    ensures ReadFields(kvs + [k + "=" + v]) == ReadFields(kvs)
  {
    FieldReads(k, v);
    assert (kvs + [k + "=" + v])[..|kvs|] == kvs;
  }

  /** Of two fields with one name the later one counts. */
  lemma LaterFieldCounts(kvs: seq<string>, exp: int)
    requires ReadFields(kvs).Some? && Decimal.MIN_INT64 <= exp <= Decimal.MAX_INT64
    ensures ReadFields(kvs + ["exp" + "=" + Decimal.Print(exp)]) == Some(ReadFields(kvs).value.(exp := exp))
  {
    ReadAppend(kvs, "exp" + "=" + Decimal.Print(exp));
    ExpFieldReads(ReadFields(kvs).value, exp);
  }

  /** White space around a formatted part changes nothing. */
  lemma SurroundedParses(p: Part, before: string, after: string)
    requires WellFormed(p)
    requires forall i :: 0 <= i < |before| ==> Text.IsSpace(before[i])
    requires forall i :: 0 <= i < |after| ==> Text.IsSpace(after[i])
    ensures Parsed(before + Format(p) + after) == Some(p)
  {
    var text, b64 := Format(p), Base64.Encode(p.chunk);
    FormatParses(p);
    Base64.EncodedShape(p.chunk);
    assert text[0] == '-' && text[|text| - 1] == b64[|b64| - 1];
    Text.NothingToTrim(text);
    Text.Trims(before, text, after);
  }

  /** The concatenation of the first n slices. */
  function Slices(payload: Blob, size: int, n: nat): Blob
    requires 0 < size
  {
    if n == 0 then [] else Slices(payload, size, n - 1) + Slice(payload, size, n - 1)
  }

  lemma {:induction false} SlicesArePrefix(payload: Blob, size: int, n: nat)
    requires 0 < size
    ensures 0 <= n * size && Slices(payload, size, n) == payload[..AtMost(n * size, |payload|)]
  {
    MulMonotone(0, n, size);
    if n > 0 {
      MulMonotone(0, n - 1, size);
      SlicesArePrefix(payload, size, n - 1);
      SliceBounds(payload, size, n - 1);
    }
  }

  lemma PartParses(sid: string, mid: string, payload: Blob, exp: int, size: int, i: nat)
    requires 0 < size && ValidId(sid) && ValidId(mid) && i < Total(payload, size) <= MAX_PARTS
    requires Decimal.MIN_INT64 <= exp <= Decimal.MAX_INT64
    ensures var p := PartOf(sid, mid, payload, exp, size, i); Parsed(Format(p)) == Some(p)
  {
    SliceBounds(payload, size, i);
    FormatParses(PartOf(sid, mid, payload, exp, size, i));
  }

  /**
   * The i-th string Encode produces parses to the i-th slice with its number, the total, the ids and the
   * deadline; there are just enough slices to cover the payload, and together they are the payload.
   */
  lemma {:induction false} EncodeParses(parts: seq<string>, sid: string, mid: string, payload: Blob, exp: int,
                                        size: int)
    requires 0 < size && ValidId(sid) && ValidId(mid) && payload != []
    requires Decimal.MIN_INT64 <= exp <= Decimal.MAX_INT64
    requires |parts| <= MAX_PARTS && EncodesTo(parts, sid, mid, payload, exp, size)
    ensures (|parts| - 1) * size < |payload| <= |parts| * size
    ensures forall i :: 0 <= i < |parts| ==>
              Parsed(parts[i]) == Some(Part(sid, mid, i + 1, |parts|, exp, Slice(payload, size, i)))
    ensures Slices(payload, size, |parts|) == payload
  {
    SliceBounds(payload, size, 0);
    SliceBounds(payload, size, |parts| - 1);
    forall i | 0 <= i < |parts|
      ensures Parsed(parts[i]) == Some(Part(sid, mid, i + 1, |parts|, exp, Slice(payload, size, i)))
    {
      PartParses(sid, mid, payload, exp, size, i);
      assert IsPart(parts[i], sid, mid, payload, exp, size, i);
    }
    SlicesArePrefix(payload, size, |parts|);
    SliceBounds(payload, size, |parts|);
  }

  /** Every part Parse returns is well formed, whatever the text. */
  lemma ParsedIsWellFormed(text: string)
    requires Parsed(text).Some?
    ensures WellFormed(Parsed(text).value)
  {
    var m := MatchPart(Text.TrimSpace(text));
    HeaderInRange(Text.Split(m.value.0, ','));
  }

  lemma {:induction false} HeaderInRange(kvs: seq<string>)
    requires ReadFields(kvs).Some?
    ensures var h := ReadFields(kvs).value;
            && (h.sid == "" || ValidId(h.sid)) && (h.mid == "" || ValidId(h.mid))
            && Decimal.MIN_INT64 <= h.exp <= Decimal.MAX_INT64
  {
    if kvs != [] {
      HeaderInRange(kvs[..|kvs| - 1]);
    }
  }
}
