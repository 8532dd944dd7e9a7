/** The HTTP client's chunked decoder, against the encoding of section 7.1 of RFC 9112. */
module Chunked {

  import opened Wrappers

  type Byte = bv8

  const CR: Byte := 13
  const LF: Byte := 10
  const CRLF: seq<Byte> := [CR, LF]
  const USIZE_MAX: nat := 0xFFFF_FFFF_FFFF_FFFF
  const ISIZE_MAX: nat := 0x7FFF_FFFF_FFFF_FFFF

  /** `Aborted` is the arithmetic overflow of a chunk end that no slice can reach. */
  datatype Outcome = Done(body: seq<Byte>) | Failed | Aborted

  // ----- Size lines

  /** Bytes of the white space character a line starts with, in UTF-8; 0 if none. */
  function SpaceAtStart(s: seq<Byte>): (k: nat)
    ensures k <= |s|
  {
    if |s| >= 1 && (9 <= s[0] <= 13 || s[0] == 32) then 1
    else if |s| >= 2 && s[0] == 0xC2 && s[1] in {0x85, 0xA0} then 2
    else if |s| >= 3 && WideSpace(s[0], s[1], s[2]) then 3
    else 0
  }

  function SpaceAtEnd(s: seq<Byte>): (k: nat)
    ensures k <= |s|
  {
    var n := |s|;
    if n >= 1 && (9 <= s[n - 1] <= 13 || s[n - 1] == 32) then 1
    else if n >= 2 && s[n - 2] == 0xC2 && s[n - 1] in {0x85, 0xA0} then 2
    else if n >= 3 && WideSpace(s[n - 3], s[n - 2], s[n - 1]) then 3
    else 0
  }

  predicate WideSpace(a: Byte, b: Byte, c: Byte) {
    || (a == 0xE1 && b == 0x9A && c == 0x80)
    || (a == 0xE2 && b == 0x80 && (0x80 <= c <= 0x8A || c in {0xA8, 0xA9, 0xAF}))
    || (a == 0xE2 && b == 0x81 && c == 0x9F)
    || (a == 0xE3 && b == 0x80 && c == 0x80)
  }

  function TrimStart(s: seq<Byte>): seq<Byte>
    decreases |s|
  {
    if SpaceAtStart(s) == 0 then s else TrimStart(s[SpaceAtStart(s)..])
  }

  function TrimEnd(s: seq<Byte>): seq<Byte>
    decreases |s|
  {
    if SpaceAtEnd(s) == 0 then s else TrimEnd(s[..|s| - SpaceAtEnd(s)])
  }

  predicate IsHex(b: Byte) {
    48 <= b <= 57 || 65 <= b <= 70 || 97 <= b <= 102
  }

  predicate AllHex(s: seq<Byte>) {
    forall i :: 0 <= i < |s| ==> IsHex(s[i])
  }

  function Digit(b: Byte): nat
    requires IsHex(b)
  {
    if b <= 57 then (b - 48) as nat else if b <= 70 then (b - 55) as nat else (b - 87) as nat
  }

  function HexValue(s: seq<Byte>): nat
    requires AllHex(s)
  {
    if s == [] then 0 else 16 * HexValue(s[..|s| - 1]) + Digit(s[|s| - 1])
  }

  /** A trimmed line of hexadecimal digits with an optional plus sign, if it fits. */
  function ParseSize(line: seq<Byte>): Option<nat> {
    var t := TrimEnd(TrimStart(line));
    var d := if t != [] && t[0] == 43 then t[1..] else t;
    if d == [] || !AllHex(d) || HexValue(d) > USIZE_MAX then None else Some(HexValue(d))
  }

  predicate PairAt(s: seq<Byte>, i: nat) {
    i + 2 <= |s| && s[i] == CR && s[i + 1] == LF
  }

  /** Index of the first CR LF pair at or after `i`. */
  function FindFrom(s: seq<Byte>, i: nat): (r: Option<nat>)
    ensures r.Some? ==> PairAt(s, r.value)
    decreases |s| - i
  {
    if i + 2 > |s| then None
    else if PairAt(s, i) then Some(i)
    else FindFrom(s, i + 1)
  }

  // ----- Decoding

  function Prepend(chunk: seq<Byte>, o: Outcome): Outcome {
    if o.Done? then Done(chunk + o.body) else o
  }

  /** Reads a size line. */
  type Reader = seq<Byte> -> Option<nat>

  /** A size line and the bytes after its line end. */
  datatype Line = Line(text: seq<Byte>, rest: seq<Byte>)

  function SplitLine(s: seq<Byte>): (r: Option<Line>)
    ensures r.Some? ==> |r.value.text| + 2 + |r.value.rest| == |s|
  {
    match FindFrom(s, 0)
    case None => None
    case Some(k) => Some(Line(s[..k], s[k + 2..]))
  }

  /** What one round of the loop finds: an end, or a chunk and where to go on. */
  datatype Round = Stop(outcome: Outcome) | Go(chunk: seq<Byte>, rest: seq<Byte>, pos: nat)

  /** One round once the size line is read; `start` is where the chunk begins. */
  function AfterSize(size: Option<nat>, rest: seq<Byte>, start: nat): (r: Round)
    ensures r.Go? ==> |r.rest| <= |rest|
  {
    match size
    case None => Stop(Failed)
    case Some(n) =>
      if n == 0 then Stop(Done([]))
      else if start + n > USIZE_MAX then Stop(Aborted)
      else if n > |rest| then Stop(Done(rest))
      else Go(rest[..n], Skip(rest, n + 2), start + n + 2)
  }

  function Take(read: Reader, s: seq<Byte>, pos: nat): (r: Round)
    ensures r.Go? ==> |r.rest| < |s|
  {
    if s == [] then Stop(Done([]))
    else
      match SplitLine(s)
      case None => Stop(Failed)
      case Some(line) => AfterSize(read(line.text), line.rest, pos + |line.text| + 2)
  }

  /** What decoding makes of the bytes `s` that start at position `pos`. */
  function Decode(read: Reader, s: seq<Byte>, pos: nat): Outcome
    decreases |s|
  {
    match Take(read, s, pos)
    case Stop(o) => o
    case Go(chunk, rest, next) => Prepend(chunk, Decode(read, rest, next))
  }

  function Skip(s: seq<Byte>, k: nat): seq<Byte> {
    if k <= |s| then s[k..] else []
  }

  /** Places in the rest of the input are places in the input. */
  lemma SliceOfRest(data: seq<Byte>, pos: nat, k: nat, size: nat)
    requires pos + k <= |data|
    ensures data[pos..][k..] == data[pos + k..]
    ensures pos + k + size <= |data| ==>
        && data[pos + k..pos + k + size] == data[pos..][k..][..size]
        && Skip(data, pos + k + size + 2) == Skip(data[pos..][k..], size + 2)
  {
    var rest := data[pos + k..];
    assert data[pos..][k..] == rest;
    if pos + k + size <= |data| {
      assert data[pos + k..pos + k + size] == rest[..size];
      if pos + k + size + 2 <= |data| { assert data[pos + k + size + 2..] == rest[size + 2..]; }
    }
  }

  /** One round of the loop: the size line, then the chunk. */
  method ReadChunk(read: Reader, data: seq<Byte>, pos: nat) returns (r: Round)
    requires pos < |data|
    ensures r == Take(read, data[pos..], pos)
    ensures r.Go? ==> r.pos > pos && r.rest == Skip(data, r.pos)
  {
    var lineEnd := FindFrom(data[pos..], 0);
    if lineEnd.None? { return Stop(Failed); }
    var size := read(data[pos..][..lineEnd.value]);
    if size.None? { return Stop(Failed); }
    if size.value == 0 { return Stop(Done([])); }
    var chunkStart := pos + lineEnd.value + 2;
    var chunkEnd := chunkStart + size.value;
    if chunkEnd > USIZE_MAX { return Stop(Aborted); }
    SliceOfRest(data, pos, lineEnd.value + 2, size.value);
    if chunkEnd > |data| { return Stop(Done(data[chunkStart..])); }
    return Go(data[chunkStart..chunkEnd], Skip(data, chunkEnd + 2), chunkEnd + 2);
  }

  method DecodeWith(read: Reader, data: seq<Byte>) returns (r: Outcome)
    ensures r == Decode(read, data, 0)
  {
    var result: seq<Byte> := [];
    var pos := 0;
    ghost var left := data;
    while pos < |data|
      invariant left == Skip(data, pos)
      invariant Decode(read, data, 0) == Prepend(result, Decode(read, left, pos))
      decreases |data| - pos
    {
      var round := ReadChunk(read, data, pos);
      if round.Stop? { return if round.outcome.Done? then Done(result + round.outcome.body) else round.outcome; }
      GoOn(read, left, pos, round.chunk, round.rest, round.pos);
      PrependTwice(result, round.chunk, Decode(read, round.rest, round.pos));
      result := result + round.chunk;
      left := round.rest;
      pos := round.pos;
    }
    return Done(result);
  }

  method DecodeChunked(data: seq<Byte>) returns (r: Outcome)
    ensures r == Decode(ParseSize, data, 0)
  {
    r := DecodeWith(ParseSize, data);
  }

  lemma GoOn(read: Reader, s: seq<Byte>, pos: nat, chunk: seq<Byte>, rest: seq<Byte>, next: nat)
    requires Take(read, s, pos) == Go(chunk, rest, next)
    ensures Decode(read, s, pos) == Prepend(chunk, Decode(read, rest, next))
  {
  }

  lemma PrependTwice(a: seq<Byte>, b: seq<Byte>, o: Outcome)
    ensures Prepend(a, Prepend(b, o)) == Prepend(a + b, o)
  {
    if o.Done? { assert a + (b + o.body) == a + b + o.body; }
  }

  // ----- The encoding

  /** A chunk with the digits its size is written with. */
  datatype Chunk = Chunk(digits: seq<Byte>, data: seq<Byte>)

  ghost predicate Proper(c: Chunk) {
    c.digits != [] && AllHex(c.digits) && HexValue(c.digits) == |c.data| && c.data != []
  }

  ghost predicate AllProper(chunks: seq<Chunk>) {
    forall i :: 0 <= i < |chunks| ==> Proper(chunks[i])
  }

  /** The last chunk: zeros and a line end, then trailers, which nobody reads. */
  ghost predicate Last(zeros: seq<Byte>) {
    zeros != [] && forall i :: 0 <= i < |zeros| ==> zeros[i] == 48
  }

  /** A line, its end and what follows. */
  function Terminated(line: seq<Byte>, rest: seq<Byte>): seq<Byte> {
    line + CRLF + rest
  }

  function Encode(chunks: seq<Chunk>, zeros: seq<Byte>, trailer: seq<Byte>): seq<Byte> {
    if chunks == [] then Terminated(zeros, trailer)
    else Terminated(chunks[0].digits, chunks[0].data + Terminated([], Encode(chunks[1..], zeros, trailer)))
  }

  function Body(chunks: seq<Chunk>): seq<Byte> {
    if chunks == [] then [] else chunks[0].data + Body(chunks[1..])
  }

  /** The body bytes among the first `k` bytes of the encoding. */
  function Arrived(chunks: seq<Chunk>, k: nat): seq<Byte> {
    if chunks == [] then []
    else
      var c := chunks[0];
      var start := |c.digits| + 2;
      if k <= start then []
      else if k <= start + |c.data| then c.data[..k - start]
      else c.data + Arrived(chunks[1..], if k >= start + |c.data| + 2 then k - start - |c.data| - 2 else 0)
  }

  /** The first `k` bytes end inside a size line. */
  predicate CutInLine(chunks: seq<Chunk>, zeros: seq<Byte>, k: nat) {
    if chunks == [] then 0 < k < |zeros| + 2
    else
      var line, whole := |chunks[0].digits| + 2, |chunks[0].digits| + |chunks[0].data| + 4;
      if k <= whole then 0 < k < line else CutInLine(chunks[1..], zeros, k - whole)
  }

  lemma {:induction false} ArrivedIsPrefix(chunks: seq<Chunk>, k: nat)
    ensures Arrived(chunks, k) <= Body(chunks)
    decreases |chunks|
  {
    if chunks != [] {
      var c := chunks[0];
      var start := |c.digits| + 2;
      ArrivedIsPrefix(chunks[1..], if k >= start + |c.data| + 2 then k - start - |c.data| - 2 else 0);
    }
  }

  lemma {:induction false} ArrivedWhole(chunks: seq<Chunk>, zeros: seq<Byte>, trailer: seq<Byte>)
    ensures Arrived(chunks, |Encode(chunks, zeros, trailer)|) == Body(chunks)
    decreases |chunks|
  {
    if chunks != [] { ArrivedWhole(chunks[1..], zeros, trailer); }
  }

  lemma {:induction false} WholeIsNoCut(chunks: seq<Chunk>, zeros: seq<Byte>, trailer: seq<Byte>)
    ensures !CutInLine(chunks, zeros, |Encode(chunks, zeros, trailer)|)
    decreases |chunks|
  {
    if chunks != [] { WholeIsNoCut(chunks[1..], zeros, trailer); }
  }

  // ----- Size lines of an encoding

  /** A byte that may be a digit is no part of a white space character at either end. */
  lemma HexIsNoSpace(s: seq<Byte>)
    requires AllHex(s)
    ensures SpaceAtStart(s) == 0 && SpaceAtEnd(s) == 0
  {
    var n := |s|;
    if n >= 1 { assert IsHex(s[0]) && IsHex(s[n - 1]); }
    if n >= 2 { assert IsHex(s[n - 2]); }
  }

  lemma TrimHex(s: seq<Byte>)
    requires AllHex(s)
    ensures TrimEnd(TrimStart(s)) == s
  {
    HexIsNoSpace(s);
  }

  lemma ParseHex(s: seq<Byte>)
    requires AllHex(s) && s != [] && HexValue(s) <= USIZE_MAX
    ensures ParseSize(s) == Some(HexValue(s))
  {
    TrimHex(s);
  }

  /** White space characters and nothing else, read from the front. */
  ghost predicate White(w: seq<Byte>)
    decreases |w|
  {
    w == [] || (SpaceAtStart(w) > 0 && White(w[SpaceAtStart(w)..]))
  }

  /** And read from the back. */
  ghost predicate WhiteBack(w: seq<Byte>)
    decreases |w|
  {
    w == [] || (SpaceAtEnd(w) > 0 && WhiteBack(w[..|w| - SpaceAtEnd(w)]))
  }

  lemma SpaceStays(w: seq<Byte>, s: seq<Byte>)
    requires SpaceAtStart(w) > 0
    ensures SpaceAtStart(w + s) == SpaceAtStart(w)
  {
  }

  lemma SpaceStaysBack(s: seq<Byte>, w: seq<Byte>)
    requires SpaceAtEnd(w) > 0
    ensures SpaceAtEnd(s + w) == SpaceAtEnd(w)
  {
  }

  lemma {:induction false} TrimsFront(w: seq<Byte>, s: seq<Byte>)
    requires White(w) && SpaceAtStart(s) == 0
    ensures TrimStart(w + s) == s
    decreases |w|
  {
    if w == [] {
      assert w + s == s;
    } else {
      var k := SpaceAtStart(w);
      SpaceStays(w, s);
      TrimsFront(w[k..], s);
      assert (w + s)[k..] == w[k..] + s;
    }
  }

  lemma {:induction false} TrimsBack(s: seq<Byte>, w: seq<Byte>)
    requires WhiteBack(w) && SpaceAtEnd(s) == 0
    ensures TrimEnd(s + w) == s
    decreases |w|
  {
    if w == [] {
      assert s + w == s;
    } else {
      var k := SpaceAtEnd(w);
      SpaceStaysBack(s, w);
      TrimsBack(s, w[..|w| - k]);
      DropEnd(s, w, k);
    }
  }

  lemma DropEnd(s: seq<Byte>, w: seq<Byte>, k: nat)
    requires k <= |w|
    ensures (s + w)[..|s + w| - k] == s + w[..|w| - k]
  {
  }

  /** A size line may be padded with white space on both sides and carry a plus sign. */
  lemma ParsePadded(front: seq<Byte>, plus: bool, digits: seq<Byte>, back: seq<Byte>)
    requires White(front) && WhiteBack(back) && AllHex(digits) && digits != [] && HexValue(digits) <= USIZE_MAX
    ensures var body := if plus then [43] + digits else digits;
      ParseSize(front + (body + back)) == Some(HexValue(digits))
  {
    var body := if plus then [43] + digits else digits;
    StartsSolid(body, plus, digits, back);
    EndsSolid(body, plus, digits);
    TrimsFront(front, body + back);
    TrimsBack(body, back);
    assert plus ==> body[1..] == digits;
    assert !plus ==> IsHex(body[0]);
  }

  lemma StartsSolid(body: seq<Byte>, plus: bool, digits: seq<Byte>, back: seq<Byte>)
    requires AllHex(digits) && digits != [] && body == if plus then [43] + digits else digits
    ensures SpaceAtStart(body + back) == 0
  {
    var s := body + back;
    assert s[0] == 43 || IsHex(s[0]) by { assert !plus ==> IsHex(digits[0]); }
  }

  lemma EndsSolid(body: seq<Byte>, plus: bool, digits: seq<Byte>)
    requires AllHex(digits) && digits != [] && body == if plus then [43] + digits else digits
    ensures SpaceAtEnd(body) == 0
  {
    var n := |body|;
    assert body[n - 1] == digits[|digits| - 1] && IsHex(body[n - 1]);
  }

  lemma {:induction false} ZerosAreZero(zeros: seq<Byte>)
    requires forall i :: 0 <= i < |zeros| ==> zeros[i] == 48
    ensures AllHex(zeros) && HexValue(zeros) == 0
    decreases |zeros|
  {
    if zeros != [] { ZerosAreZero(zeros[..|zeros| - 1]); }
  }

  lemma {:induction false} FoundAt(s: seq<Byte>, i: nat, k: nat)
    requires i <= k && PairAt(s, k) && forall j :: i <= j < k ==> s[j] != CR
    ensures FindFrom(s, i) == Some(k)
    decreases k - i
  {
    if i < k { FoundAt(s, i + 1, k); }
  }

  lemma {:induction false} FoundNowhere(s: seq<Byte>, i: nat)
    requires forall j :: i <= j < |s| - 1 ==> s[j] != CR
    ensures FindFrom(s, i) == None
    decreases |s| - i
  {
    if i + 2 <= |s| { FoundNowhere(s, i + 1); }
  }

  lemma SplitTerminated(line: seq<Byte>, rest: seq<Byte>)
    requires CR !in line
    ensures SplitLine(Terminated(line, rest)) == Some(Line(line, rest))
  {
    var s, k := Terminated(line, rest), |line|;
    FoundAt(s, 0, k);
    assert s[..k] == line && s[k + 2..] == rest;
  }

  lemma SplitNothing(line: seq<Byte>, k: nat)
    requires CR !in line && k <= |line| + 1
    ensures SplitLine((line + CRLF)[..k]) == None
  {
    FoundNowhere((line + CRLF)[..k], 0);
  }

  // ----- Truncation and round trip

  /** One round over a line and what follows, cut after `k` bytes. */
  lemma CutLine(read: Reader, line: seq<Byte>, rest: seq<Byte>, k: nat, pos: nat)
    requires CR !in line && k <= |line| + 2 + |rest|
    ensures Take(read, Terminated(line, rest)[..k], pos) ==
            if k == 0 then Stop(Done([]))
            else if k < |line| + 2 then Stop(Failed)
            else AfterSize(read(line), rest[..k - |line| - 2], pos + |line| + 2)
  {
    var s := Terminated(line, rest)[..k];
    if 0 < k < |line| + 2 {
      assert s == (line + CRLF)[..k];
      SplitNothing(line, k);
    } else if k > 0 {
      assert s == Terminated(line, rest[..k - |line| - 2]);
      SplitTerminated(line, rest[..k - |line| - 2]);
    }
  }

  /** The rest of a round over a proper chunk, with `k` of the bytes after its line. */
  lemma CutData(data: seq<Byte>, rest: seq<Byte>, k: nat, start: nat)
    requires data != [] && start + |data| <= USIZE_MAX && k <= |data| + 2 + |rest|
    ensures AfterSize(Some(|data|), (data + Terminated([], rest))[..k], start) ==
            if k < |data| then Stop(Done(data[..k]))
            else Go(data, if k < |data| + 2 then [] else rest[..k - |data| - 2], start + |data| + 2)
  {
    var s := (data + Terminated([], rest))[..k];
    if k < |data| {
      assert s == data[..k];
    } else {
      assert s[..|data|] == data;
      if k >= |data| + 2 { assert s[|data| + 2..] == rest[..k - |data| - 2]; }
    }
  }

  /** A size line that reads as the length of the data. */
  ghost predicate Framed(read: Reader, c: Chunk) {
    c.data != [] && CR !in c.digits && read(c.digits) == Some(|c.data|)
  }

  ghost predicate AllFramed(read: Reader, chunks: seq<Chunk>) {
    forall i :: 0 <= i < |chunks| ==> Framed(read, chunks[i])
  }

  ghost predicate Ends(read: Reader, zeros: seq<Byte>) {
    CR !in zeros && read(zeros) == Some(0)
  }

  function Expected(chunks: seq<Chunk>, zeros: seq<Byte>, k: nat): Outcome {
    if CutInLine(chunks, zeros, k) then Failed else Done(Arrived(chunks, k))
  }

  /** Bytes of the encoding's tail among the first `k` bytes. */
  function Left(c: Chunk, k: nat): nat {
    var m := |c.digits| + |c.data| + 4;
    if k < m then 0 else k - m
  }

  /** The outcome for `k` bytes from the outcome for the tail. */
  function CutOutcome(c: Chunk, k: nat, tail: Outcome): Outcome {
    var start := |c.digits| + 2;
    if k == 0 then Done([])
    else if k < start then Failed
    else if k < start + |c.data| then Done(c.data[..k - start])
    else Prepend(c.data, tail)
  }

  /** The expected outcome, one chunk at a time. */
  lemma ExpectedStep(chunks: seq<Chunk>, zeros: seq<Byte>, k: nat)
    requires chunks != [] && chunks[0].data != []
    ensures Expected(chunks, zeros, k) == CutOutcome(chunks[0], k, Expected(chunks[1..], zeros, Left(chunks[0], k)))
  {
    var c := chunks[0];
    if k >= |c.digits| + 2 {
      NothingYet(chunks[1..], zeros);
      assert c.data[..|c.data|] == c.data;
    }
  }

  lemma NothingYet(chunks: seq<Chunk>, zeros: seq<Byte>)
    ensures Expected(chunks, zeros, 0) == Done([])
  {
  }

  lemma HexHasNoCr(s: seq<Byte>)
    requires AllHex(s)
    ensures CR !in s
  {
  }

  lemma EncodeStep(chunks: seq<Chunk>, zeros: seq<Byte>, trailer: seq<Byte>)
    requires chunks != []
    ensures var c, rest := chunks[0], Encode(chunks[1..], zeros, trailer);
      && Encode(chunks, zeros, trailer) == Terminated(c.digits, c.data + Terminated([], rest))
      && |Encode(chunks, zeros, trailer)| == |c.digits| + |c.data| + 4 + |rest|
  {
  }

  lemma TruncatedLast(read: Reader, zeros: seq<Byte>, trailer: seq<Byte>, k: nat, pos: nat)
    requires Ends(read, zeros) && k <= |zeros| + 2 + |trailer|
    ensures Decode(read, Terminated(zeros, trailer)[..k], pos) == Expected([], zeros, k)
  {
    CutLine(read, zeros, trailer, k, pos);
  }

  ghost predicate DecodesTo(read: Reader, s: seq<Byte>, k: nat, pos: nat, o: Outcome)
    requires k <= |s|
  {
    Decode(read, s[..k], pos) == o
  }

  /** Cutting an encoding anywhere gives exactly the body bytes that arrived, or a failure
      when and only when the cut is inside a size line. Size lines may be anything that
      reads as the length. */
  lemma {:induction false} DecodeTruncated(read: Reader, chunks: seq<Chunk>, zeros: seq<Byte>, trailer: seq<Byte>,
      k: nat, pos: nat)
    requires AllFramed(read, chunks) && Ends(read, zeros)
    requires k <= |Encode(chunks, zeros, trailer)| && pos + |Encode(chunks, zeros, trailer)| <= ISIZE_MAX
    ensures DecodesTo(read, Encode(chunks, zeros, trailer), k, pos, Expected(chunks, zeros, k))
    decreases |chunks|
  {
    if chunks == [] {
      TruncatedLast(read, zeros, trailer, k, pos);
    } else {
      var c, rest := chunks[0], Encode(chunks[1..], zeros, trailer);
      EncodeStep(chunks, zeros, trailer);
      assert AllFramed(read, chunks[1..]) && Left(c, k) <= |rest|;
      DecodeTruncated(read, chunks[1..], zeros, trailer, Left(c, k), pos + |c.digits| + |c.data| + 4);
      TruncatedStep(read, chunks, zeros, Encode(chunks, zeros, trailer), rest, k, pos);
    }
  }

  lemma TruncatedStep(read: Reader, chunks: seq<Chunk>, zeros: seq<Byte>, s: seq<Byte>, rest: seq<Byte>, k: nat,
      pos: nat)
    requires chunks != [] && Framed(read, chunks[0]) && k <= |s| && pos + |s| <= ISIZE_MAX
    requires s == Terminated(chunks[0].digits, chunks[0].data + Terminated([], rest))
    requires Left(chunks[0], k) <= |rest|
    requires DecodesTo(read, rest, Left(chunks[0], k), pos + |chunks[0].digits| + |chunks[0].data| + 4,
                       Expected(chunks[1..], zeros, Left(chunks[0], k)))
    ensures DecodesTo(read, s, k, pos, Expected(chunks, zeros, k))
  {
    ExpectedStep(chunks, zeros, k);
    TruncatedChunk(read, chunks[0], rest, s, k, pos, Expected(chunks[1..], zeros, Left(chunks[0], k)));
  }

  /** One round over a chunk in front of the rest of an encoding, cut after `k` bytes. */
  lemma CutChunk(read: Reader, c: Chunk, rest: seq<Byte>, k: nat, pos: nat)
    requires Framed(read, c) && k <= |c.digits| + |c.data| + 4 + |rest|
    requires pos + |c.digits| + |c.data| + 4 + |rest| <= ISIZE_MAX
    ensures var start := |c.digits| + 2;
      Take(read, Terminated(c.digits, c.data + Terminated([], rest))[..k], pos) ==
      if k == 0 then Stop(Done([]))
      else if k < start then Stop(Failed)
      else if k < start + |c.data| then Stop(Done(c.data[..k - start]))
      else Go(c.data, rest[..Left(c, k)], pos + |c.digits| + |c.data| + 4)
  {
    CutLine(read, c.digits, c.data + Terminated([], rest), k, pos);
    if k >= |c.digits| + 2 {
      CutData(c.data, rest, k - |c.digits| - 2, pos + |c.digits| + 2);
      assert rest[..0] == [];
    }
  }

  /** A cut encoding from what becomes of its tail. */
  lemma TruncatedChunk(read: Reader, c: Chunk, rest: seq<Byte>, s: seq<Byte>, k: nat, pos: nat, tail: Outcome)
    requires Framed(read, c) && s == Terminated(c.digits, c.data + Terminated([], rest)) && k <= |s|
    requires pos + |s| <= ISIZE_MAX
    requires tail == Decode(read, rest[..Left(c, k)], pos + |c.digits| + |c.data| + 4)
    ensures Decode(read, s[..k], pos) == CutOutcome(c, k, tail)
  {
    if k < |c.digits| + 2 + |c.data| {
      CutEarly(read, c, rest, k, pos);
    } else {
      CutLate(read, c, rest, k, pos);
    }
  }

  lemma CutEarly(read: Reader, c: Chunk, rest: seq<Byte>, k: nat, pos: nat)
    requires Framed(read, c) && k < |c.digits| + 2 + |c.data|
    requires pos + |c.digits| + |c.data| + 4 + |rest| <= ISIZE_MAX
    ensures Decode(read, Terminated(c.digits, c.data + Terminated([], rest))[..k], pos) == CutOutcome(c, k, Failed)
  {
    CutChunk(read, c, rest, k, pos);
  }

  lemma CutLate(read: Reader, c: Chunk, rest: seq<Byte>, k: nat, pos: nat)
    requires Framed(read, c) && |c.digits| + 2 + |c.data| <= k <= |c.digits| + |c.data| + 4 + |rest|
    requires pos + |c.digits| + |c.data| + 4 + |rest| <= ISIZE_MAX
    ensures Decode(read, Terminated(c.digits, c.data + Terminated([], rest))[..k], pos) ==
            Prepend(c.data, Decode(read, rest[..Left(c, k)], pos + |c.digits| + |c.data| + 4))
  {
    var s, left, next := Terminated(c.digits, c.data + Terminated([], rest))[..k], rest[..Left(c, k)],
        pos + |c.digits| + |c.data| + 4;
    assert Take(read, s, pos) == Go(c.data, left, next) by { CutChunk(read, c, rest, k, pos); }
    GoOn(read, s, pos, c.data, left, next);
  }

  lemma ProperFramed(c: Chunk)
    requires Proper(c) && |c.data| <= USIZE_MAX
    ensures Framed(ParseSize, c)
  {
    HexHasNoCr(c.digits);
    ParseHex(c.digits);
  }

  lemma LastEnds(zeros: seq<Byte>)
    requires Last(zeros)
    ensures Ends(ParseSize, zeros)
  {
    ZerosAreZero(zeros);
    HexHasNoCr(zeros);
    ParseHex(zeros);
  }

  lemma {:induction false} DataFits(chunks: seq<Chunk>, zeros: seq<Byte>, trailer: seq<Byte>, i: nat)
    requires i < |chunks|
    ensures |chunks[i].data| <= |Encode(chunks, zeros, trailer)|
    decreases |chunks|
  {
    EncodeStep(chunks, zeros, trailer);
    if i > 0 { DataFits(chunks[1..], zeros, trailer, i - 1); }
  }

  lemma ProperIsFramed(chunks: seq<Chunk>, zeros: seq<Byte>, trailer: seq<Byte>)
    requires AllProper(chunks) && Last(zeros) && |Encode(chunks, zeros, trailer)| <= ISIZE_MAX
    ensures AllFramed(ParseSize, chunks) && Ends(ParseSize, zeros)
  {
    LastEnds(zeros);
    forall i | 0 <= i < |chunks|
      ensures Framed(ParseSize, chunks[i])
    {
      DataFits(chunks, zeros, trailer, i);
      ProperFramed(chunks[i]);
    }
  }

  /** Any size digits, any number of zeros, any trailer: the body comes back. */
  lemma RoundTrip(chunks: seq<Chunk>, zeros: seq<Byte>, trailer: seq<Byte>)
    requires AllProper(chunks) && Last(zeros)
    requires |Encode(chunks, zeros, trailer)| <= ISIZE_MAX
    ensures Decode(ParseSize, Encode(chunks, zeros, trailer), 0) == Done(Body(chunks))
  {
    var s := Encode(chunks, zeros, trailer);
    ProperIsFramed(chunks, zeros, trailer);
    DecodeTruncated(ParseSize, chunks, zeros, trailer, |s|, 0);
    assert s[..|s|] == s;
    ArrivedWhole(chunks, zeros, trailer);
    WholeIsNoCut(chunks, zeros, trailer);
  }

  /** A truncated message never yields bytes that are not in the body. */
  lemma TruncationIsSafe(chunks: seq<Chunk>, zeros: seq<Byte>, trailer: seq<Byte>, k: nat)
    requires AllProper(chunks) && Last(zeros)
    requires k <= |Encode(chunks, zeros, trailer)| <= ISIZE_MAX
    ensures var o := Decode(ParseSize, Encode(chunks, zeros, trailer)[..k], 0);
      o == Failed || (o.Done? && o.body <= Body(chunks))
  {
    ProperIsFramed(chunks, zeros, trailer);
    DecodeTruncated(ParseSize, chunks, zeros, trailer, k, 0);
    ArrivedIsPrefix(chunks, k);
  }

  lemma SpaceAvoids(s: seq<Byte>, i: nat)
    requires i < |s| && s[i] == 59
    ensures i < |s| - SpaceAtEnd(s)
  {
    var n := |s|;
    assert SpaceAtEnd(s) == 3 ==> WideSpace(s[n - 3], s[n - 2], s[n - 1]);
  }

  lemma TrimOnce(s: seq<Byte>, k: nat)
    requires k == SpaceAtEnd(s)
    ensures TrimEnd(s) == if k == 0 then s else TrimEnd(s[..|s| - k])
  {
  }

  /** A semicolon is part of no white space character, so trimming stops at it. */
  lemma {:induction false} TrimStops(p: seq<Byte>, x: seq<Byte>)
    requires p != [] && p[|p| - 1] == 59
    ensures p <= TrimEnd(p + x)
    decreases |x|
  {
    var s := p + x;
    var k := SpaceAtEnd(s);
    TrimOnce(s, k);
    if k > 0 {
      SpaceAvoids(s, |p| - 1);
      assert s[..|s| - k] == p + x[..|x| - k];
      TrimStops(p, x[..|x| - k]);
    }
  }

  /** Chunk extensions, which the RFC allows, are refused. */
  lemma ExtensionRefused(digits: seq<Byte>, ext: seq<Byte>, rest: seq<Byte>, pos: nat)
    requires AllHex(digits) && digits != [] && CR !in ext
    ensures Decode(ParseSize, Terminated(digits + [59] + ext, rest), pos) == Failed
  {
    var line := digits + [59] + ext;
    HexHasNoCr(digits);
    SplitTerminated(line, rest);
    assert line[0] == digits[0] && TrimStart(line) == line;
    TrimStops(digits + [59], ext);
    var t := TrimEnd(line);
    assert t[0] == digits[0] && t[|digits|] == (digits + [59])[|digits|] == 59;
  }

  /** A size that leads past the largest position aborts. */
  lemma HugeSizeAborts(digits: seq<Byte>, rest: seq<Byte>, pos: nat)
    requires AllHex(digits) && digits != [] && 0 < HexValue(digits) <= USIZE_MAX
    requires pos + |digits| + 2 + HexValue(digits) > USIZE_MAX
    ensures Decode(ParseSize, Terminated(digits, rest), pos) == Aborted
  {
    HexHasNoCr(digits);
    ParseHex(digits);
    SplitTerminated(digits, rest);
    assert Terminated(digits, rest) != [];
  }
}
