/** The chunked transfer decoder, on bytes, and the encoding it undoes. */
module Chunked {
  import opened Protocol

  newtype Byte = b: int | 0 <= b < 256

  const CR: Byte := 13
  const LF: Byte := 10
  const CRLF: seq<Byte> := [CR, LF]
  const PLUS: Byte := 43

  // ---------------------------------------------------------------------
  // A size line

  /** The bytes of the white space character a text starts with, as UTF-8 encodes it; 0 if none. */
  function SpaceAt(s: seq<Byte>): (length: nat)
    ensures length <= |s|
  {
    if s == [] then 0
    else if 9 <= s[0] <= 13 || s[0] == 32 then 1
    else if |s| >= 2 && s[0] == 0xC2 && s[1] in {0x85, 0xA0} then 2
    else if |s| >= 3 && IsWideSpace(s[0], s[1], s[2]) then 3
    else 0
  }

  predicate IsWideSpace(a: Byte, b: Byte, c: Byte) {
    || (a == 0xE1 && b == 0x9A && c == 0x80)
    || (a == 0xE2 && b == 0x80 && (0x80 <= c <= 0x8A || c in {0xA8, 0xA9, 0xAF}))
    || (a == 0xE2 && b == 0x81 && c == 0x9F)
    || (a == 0xE3 && b == 0x80 && c == 0x80)
  }

  function SpaceBefore(s: seq<Byte>): (length: nat)
    ensures length <= |s|
  {
    if SpaceAt(s[if |s| < 1 then 0 else |s| - 1..]) == 1 then 1
    else if |s| >= 2 && SpaceAt(s[|s| - 2..]) == 2 then 2
    else if |s| >= 3 && SpaceAt(s[|s| - 3..]) == 3 then 3
    else 0
  }

  function Trim(s: seq<Byte>): seq<Byte> {
    if SpaceAt(s) > 0 then Trim(s[SpaceAt(s)..])
    else if SpaceBefore(s) > 0 then Trim(s[..|s| - SpaceBefore(s)])
    else s
  }

  predicate IsHexDigit(b: Byte) {
    48 <= b <= 57 || 65 <= b <= 70 || 97 <= b <= 102
  }

  function HexDigit(b: Byte): nat
    requires IsHexDigit(b)
  {
    (if b <= 57 then b - 48 else if b <= 70 then b - 55 else b - 87) as nat
  }

  predicate IsHex(s: seq<Byte>) {
    s != [] && forall i :: 0 <= i < |s| ==> IsHexDigit(s[i])
  }

  function HexValue(s: seq<Byte>): nat
    requires forall i :: 0 <= i < |s| ==> IsHexDigit(s[i])
  {
    if s == [] then 0 else 16 * HexValue(s[..|s| - 1]) + HexDigit(s[|s| - 1])
  }

  /** The size a line names: a hexadecimal number, with white space around it and a plus sign allowed. */
  function SizeOf(line: seq<Byte>): Option<nat> {
    var text := Trim(line);
    var digits := if text != [] && text[0] == PLUS then text[1..] else text;
    if IsHex(digits) then Some(HexValue(digits)) else None
  }

  // ---------------------------------------------------------------------
  // The decoder

  /** Where the first line break is. */
  function BreakIn(payload: seq<Byte>): (at: Option<nat>)
    ensures at.Some? ==> at.value + 2 <= |payload| && payload[at.value..at.value + 2] == CRLF
  {
    if |payload| < 2 then None
    else if payload[0] == CR && payload[1] == LF then Some(0)
    else
      match BreakIn(payload[1..])
      case Some(at) =>
        assert payload[1..][at..at + 2] == payload[at + 1..at + 3];
        Some(at + 1)
      case None => None
  }

  function StripBreak(s: seq<Byte>): seq<Byte> {
    if CRLF <= s then s[2..] else s
  }

  function Dechunk(payload: seq<Byte>): seq<Byte>
    decreases |payload|
  {
    var at := BreakIn(payload);
    if at.None? then []
    else
      var size, rest := SizeOf(payload[..at.value]), payload[at.value + 2..];
      if size.Some? && 0 < size.value <= |rest|
      then rest[..size.value] + Dechunk(StripBreak(rest[size.value..]))
      else []
  }

  method FindBreak(payload: seq<Byte>) returns (at: Option<nat>)
    ensures at == BreakIn(payload)
  {
    var i := 0;
    while i + 1 < |payload|
      invariant i <= |payload|
      invariant BreakIn(payload) == (match BreakIn(payload[i..]) case Some(k) => Some(i + k) case None => None)
    {
      if payload[i] == CR && payload[i + 1] == LF {
        return Some(i);
      }
      assert payload[i..][1..] == payload[i + 1..];
      i := i + 1;
    }
    return None;
  }

  /** The first chunk and what follows it, if the payload begins with a whole chunk. */
  method FirstChunk(payload: seq<Byte>) returns (chunk: Option<seq<Byte>>, rest: seq<Byte>)
    ensures chunk.None? ==> Dechunk(payload) == []
    ensures chunk.Some? ==> Dechunk(payload) == chunk.value + Dechunk(rest) && |rest| < |payload|
    ensures chunk.Some? ==> |chunk.value| + |rest| <= |payload|
  {
    chunk, rest := None, payload;
    var end := FindBreak(payload);
    if end.Some? {
      var size, after := SizeOf(payload[..end.value]), payload[end.value + 2..];
      if size.Some? && 0 < size.value <= |after| {
        chunk := Some(after[..size.value]);
        rest := StripBreak(after[size.value..]);
      }
    }
  }

  method DechunkBody(body: seq<Byte>) returns (out: seq<Byte>)
    ensures out == Dechunk(body)
    ensures |out| <= |body|
  {
    var payload := body;
    out := [];
    while true
      invariant out + Dechunk(payload) == Dechunk(body)
      invariant |out| + |payload| <= |body|
      decreases |payload|
    {
      var chunk, rest := FirstChunk(payload);
      if chunk.None? {
        break;
      }
      Associates(out, chunk.value, Dechunk(rest));
      out := out + chunk.value;
      payload := rest;
    }
    assert out + [] == out;
  }

  lemma Associates(a: seq<Byte>, b: seq<Byte>, c: seq<Byte>)
    ensures a + (b + c) == a + b + c
  {
  }

  // ---------------------------------------------------------------------
  // What a size line says

  /** A digit in either case, and what it stands for. */
  predicate IsDigitOf(b: Byte, n: nat) {
    || (n < 10 && b as int == '0' as int + n)
    || (10 <= n < 16 && (b as int == 'a' as int + n - 10 || b as int == 'A' as int + n - 10))
  }

  /** The digits spell the number, however many zeros it begins with. */
  predicate Spells(digits: seq<Byte>, n: nat) {
    && digits != [] && IsDigitOf(digits[|digits| - 1], n % 16)
    && (if |digits| == 1 then n < 16 else Spells(digits[..|digits| - 1], n / 16))
  }

  lemma {:induction false} SpellingIsValue(digits: seq<Byte>, n: nat)
    ensures Spells(digits, n) <==> IsHex(digits) && HexValue(digits) == n
  {
    if |digits| == 1 {
      assert HexValue(digits[..0]) == 0;
    } else if digits != [] {
      var front, last := digits[..|digits| - 1], digits[|digits| - 1];
      SpellingIsValue(front, n / 16);
      assert forall i :: 0 <= i < |front| ==> front[i] == digits[i];
      if IsHex(digits) {
        assert HexValue(digits) == 16 * HexValue(front) + HexDigit(last);
      }
    }
  }

  predicate IsSpace(c: seq<Byte>) {
    c != [] && SpaceAt(c) == |c|
  }

  predicate AreSpaces(chars: seq<seq<Byte>>) {
    forall i :: 0 <= i < |chars| ==> IsSpace(chars[i])
  }

  function Joined(pieces: seq<seq<Byte>>): seq<Byte> {
    if pieces == [] then [] else pieces[0] + Joined(pieces[1..])
  }

  /** White space, a plus sign or none, and digits that spell the number, and white space. */
  predicate IsSizeLine(line: seq<Byte>, n: nat, before: seq<seq<Byte>>, sign: seq<Byte>, digits: seq<Byte>,
                       after: seq<seq<Byte>>) {
    && AreSpaces(before) && AreSpaces(after) && (sign == [] || sign == [PLUS]) && Spells(digits, n)
    && line == Joined(before) + sign + digits + Joined(after)
  }

  ghost predicate NamesSize(line: seq<Byte>, n: nat) {
    exists before, sign, digits, after :: IsSizeLine(line, n, before, sign, digits, after)
  }

  lemma {:induction false} JoinedThen(a: seq<seq<Byte>>, b: seq<Byte>)
    ensures Joined(a + [b]) == Joined(a) + b
  {
    if a == [] {
      assert Joined([]) == [] && [b][1..] == [];
    } else {
      assert (a + [b])[1..] == a[1..] + [b];
      JoinedThen(a[1..], b);
    }
  }

  /** The text begins and ends with something other than white space. */
  predicate IsTrim(text: seq<Byte>) {
    text != [] && 33 <= text[0] < 0x80 && 33 <= text[|text| - 1] < 0x80
  }

  lemma SpaceStarts(c: seq<Byte>, rest: seq<Byte>)
    requires IsSpace(c)
    ensures SpaceAt(c + rest) == |c|
  {
  }

  /** No white space character ends in another. */
  lemma SpaceIsOne(c: seq<Byte>)
    requires IsSpace(c)
    ensures |c| <= 3
    ensures |c| >= 2 ==> SpaceAt(c[|c| - 1..]) == 0
    ensures |c| == 3 ==> SpaceAt(c[1..]) == 0
  {
  }

  lemma SpaceEnds(rest: seq<Byte>, c: seq<Byte>)
    requires IsSpace(c)
    ensures SpaceBefore(rest + c) == |c|
  {
    SpaceIsOne(c);
    hide SpaceAt;
    var all := rest + c;
    assert all[|all| - |c|..] == c;
    assert all[|all| - 1..] == c[|c| - 1..];
    if |c| == 3 {
      assert all[|all| - 2..] == c[1..];
    }
  }

  lemma {:induction false} TrimsAfter(text: seq<Byte>, after: seq<seq<Byte>>)
    requires IsTrim(text) && AreSpaces(after)
    ensures Trim(text + Joined(after)) == text
    decreases |after|
  {
    var all := text + Joined(after);
    assert SpaceAt(all) == 0;
    if after == [] {
      assert all == text;
      EndsInNoSpace(text);
    } else {
      var front, last := after[..|after| - 1], after[|after| - 1];
      assert after == front + [last];
      JoinedThen(front, last);
      assert all == (text + Joined(front)) + last;
      SpaceEnds(text + Joined(front), last);
      assert all[..|all| - |last|] == text + Joined(front);
      TrimsAfter(text, front);
    }
  }

  lemma EndsInNoSpace(text: seq<Byte>)
    requires IsTrim(text)
    ensures SpaceBefore(text) == 0
  {
  }

  lemma {:induction false} TrimsAround(before: seq<seq<Byte>>, text: seq<Byte>, after: seq<seq<Byte>>)
    requires IsTrim(text) && AreSpaces(before) && AreSpaces(after)
    ensures Trim(Joined(before) + (text + Joined(after))) == text
    decreases |before|
  {
    if before == [] {
      TrimsAfter(text, after);
      assert [] + (text + Joined(after)) == text + Joined(after);
    } else {
      var rest := Joined(before[1..]) + (text + Joined(after));
      var all := Joined(before) + (text + Joined(after));
      assert all == before[0] + rest;
      SpaceStarts(before[0], rest);
      assert all[|before[0]|..] == rest;
      TrimsAround(before[1..], text, after);
    }
  }

  lemma SpaceAtStart(s: seq<Byte>)
    requires SpaceAt(s) > 0
    ensures IsSpace(s[..SpaceAt(s)])
  {
  }

  lemma SpaceAtEnd(s: seq<Byte>)
    requires SpaceBefore(s) > 0
    ensures IsSpace(s[|s| - SpaceBefore(s)..])
  {
    hide SpaceAt;
  }

  lemma SpacesThen(before: seq<seq<Byte>>, after: seq<seq<Byte>>, c: seq<Byte>)
    requires AreSpaces(before) && AreSpaces(after) && IsSpace(c)
    ensures AreSpaces([c] + before) && AreSpaces(after + [c])
    ensures Joined([c] + before) == c + Joined(before) && Joined(after + [c]) == Joined(after) + c
  {
    assert ([c] + before)[1..] == before;
    JoinedThen(after, c);
  }

  lemma FirstThen(s: seq<Byte>, k: nat, a: seq<Byte>, text: seq<Byte>, b: seq<Byte>)
    requires k <= |s| && s[k..] == a + text + b
    ensures s == s[..k] + a + text + b
  {
    assert s == s[..k] + s[k..];
  }

  lemma ThenLast(s: seq<Byte>, k: nat, a: seq<Byte>, text: seq<Byte>, b: seq<Byte>)
    requires k <= |s| && s[..k] == a + text + b
    ensures s == a + text + (b + s[k..])
  {
    assert s == s[..k] + s[k..];
  }

  /** What is trimmed off is white space. */
  lemma {:induction false} TrimmedIsSpace(s: seq<Byte>) returns (before: seq<seq<Byte>>, after: seq<seq<Byte>>)
    ensures AreSpaces(before) && AreSpaces(after) && s == Joined(before) + Trim(s) + Joined(after)
    decreases |s|
  {
    hide AreSpaces, IsSpace, SpaceAt, SpaceBefore, Joined;
    if SpaceAt(s) > 0 {
      SpaceAtStart(s);
      var k := SpaceAt(s);
      before, after := TrimmedIsSpace(s[k..]);
      FirstThen(s, k, Joined(before), Trim(s), Joined(after));
      SpacesThen(before, after, s[..k]);
      before := [s[..k]] + before;
    } else if SpaceBefore(s) > 0 {
      SpaceAtEnd(s);
      var k := |s| - SpaceBefore(s);
      before, after := TrimmedIsSpace(s[..k]);
      ThenLast(s, k, Joined(before), Trim(s), Joined(after));
      SpacesThen(before, after, s[k..]);
      after := after + [s[k..]];
    } else {
      JoinedNone();
      before, after := [], [];
    }
  }

  lemma JoinedNone()
    ensures Joined([]) == [] && AreSpaces([])
  {
  }

  /** A line's size is read exactly if the line names one: in digits, signed or not, amid white space. */
  lemma SizeLineReads(line: seq<Byte>, n: nat)
    ensures SizeOf(line) == Some(n) <==> NamesSize(line, n)
  {
    if NamesSize(line, n) {
      NamedIsRead(line, n);
    }
    if SizeOf(line) == Some(n) {
      ReadIsNamed(line, n);
    }
  }

  lemma NamedIsRead(line: seq<Byte>, n: nat)
    requires NamesSize(line, n)
    ensures SizeOf(line) == Some(n)
  {
    hide AreSpaces, Joined, Trim, HexValue;
    var before, sign, digits, after :| IsSizeLine(line, n, before, sign, digits, after);
    SpellingIsValue(digits, n);
    hide Spells;
    var text := sign + digits;
    assert text[|text| - 1] == digits[|digits| - 1];
    TrimsAround(before, text, after);
    assert line == Joined(before) + (text + Joined(after));
    assert text == digits || (text[1..] == digits && text[0] == PLUS);
  }

  lemma ReadIsNamed(line: seq<Byte>, n: nat)
    requires SizeOf(line) == Some(n)
    ensures NamesSize(line, n)
  {
    hide AreSpaces, Joined, Trim, HexValue, IsHex, Spells;
    var before, after := TrimmedIsSpace(line);
    var text := Trim(line);
    var sign, digits := SignedDigits(line, n);
    Regroup(Joined(before), sign, digits, Joined(after));
    assert IsSizeLine(line, n, before, sign, digits, after);
  }

  lemma SignedDigits(line: seq<Byte>, n: nat) returns (sign: seq<Byte>, digits: seq<Byte>)
    requires SizeOf(line) == Some(n)
    ensures Trim(line) == sign + digits && (sign == [] || sign == [PLUS]) && Spells(digits, n)
  {
    hide Trim, HexValue, Spells;
    var text := Trim(line);
    var signed := text != [] && text[0] == PLUS;
    sign, digits := if signed then [PLUS] else [], if signed then text[1..] else text;
    SpellingIsValue(digits, n);
    hide IsHex;
    assert text == sign + digits;
  }

  lemma Regroup(before: seq<Byte>, sign: seq<Byte>, digits: seq<Byte>, after: seq<Byte>)
    ensures before + (sign + digits) + after == before + sign + digits + after
  {
  }

  // ---------------------------------------------------------------------
  // The encoding, as section 7.1 of RFC 9112 defines it, without extensions

  /** A chunk's data, and the digits its size is written in. */
  datatype Chunk = Chunk(size: seq<Byte>, data: seq<Byte>)

  predicate IsChunk(chunk: Chunk) {
    chunk.data != [] && Spells(chunk.size, |chunk.data|)
  }

  function EncodeChunk(chunk: Chunk): seq<Byte> {
    chunk.size + CRLF + chunk.data + CRLF
  }

  /** The chunks, then the last one, of size zero, and whatever trailer follows it. */
  function Encode(chunks: seq<Chunk>, zero: seq<Byte>, trailer: seq<Byte>): seq<Byte> {
    if chunks == [] then zero + CRLF + trailer
    else EncodeChunk(chunks[0]) + Encode(chunks[1..], zero, trailer)
  }

  function Data(chunks: seq<Chunk>): seq<Byte> {
    if chunks == [] then [] else chunks[0].data + Data(chunks[1..])
  }

  lemma {:induction false} FirstBreak(line: seq<Byte>, rest: seq<Byte>)
    requires forall i :: 0 <= i < |line| ==> line[i] != CR
    ensures BreakIn(line + CRLF + rest) == Some(|line|)
  {
    var all := line + CRLF + rest;
    if line == [] {
      assert all[0] == CR && all[1] == LF;
    } else {
      FirstBreak(line[1..], rest);
      assert all[1..] == line[1..] + CRLF + rest;
    }
  }

  lemma {:induction false} NoBreak(line: seq<Byte>)
    requires forall i :: 0 <= i < |line| - 1 ==> line[i] != CR
    ensures BreakIn(line) == None
  {
    if |line| >= 2 {
      NoBreak(line[1..]);
    }
  }

  lemma DigitIsNoSpace(s: seq<Byte>)
    requires s != [] && IsHexDigit(s[0])
    ensures SpaceAt(s) == 0
  {
  }

  lemma HexEndsInNoSpace(size: seq<Byte>)
    requires IsHex(size)
    ensures SpaceBefore(size) == 0
  {
    DigitIsNoSpace(size[|size| - 1..]);
    if |size| >= 2 {
      DigitIsNoSpace(size[|size| - 2..]);
    }
    if |size| >= 3 {
      DigitIsNoSpace(size[|size| - 3..]);
    }
  }

  lemma HexIsItsSize(size: seq<Byte>)
    requires IsHex(size)
    ensures SizeOf(size) == Some(HexValue(size))
  {
    DigitIsNoSpace(size);
    HexEndsInNoSpace(size);
    assert Trim(size) == size && size[0] != PLUS;
  }

  /** Decoding after one size line. */
  lemma DechunkStep(size: seq<Byte>, rest: seq<Byte>)
    requires IsHex(size)
    ensures var n := HexValue(size);
            Dechunk(size + CRLF + rest)
            == if 0 < n <= |rest| then rest[..n] + Dechunk(StripBreak(rest[n..])) else []
  {
    var all := size + CRLF + rest;
    FirstBreak(size, rest);
    HexIsItsSize(size);
    assert all[..|size|] == size && all[|size| + 2..] == rest;
  }

  lemma DechunkOne(chunk: Chunk, rest: seq<Byte>)
    requires IsChunk(chunk)
    ensures Dechunk(EncodeChunk(chunk) + rest) == chunk.data + Dechunk(rest)
  {
    SpellingIsValue(chunk.size, |chunk.data|);
    var after := chunk.data + CRLF + rest;
    assert EncodeChunk(chunk) + rest == chunk.size + CRLF + after;
    DechunkStep(chunk.size, after);
    AfterData(chunk.data, rest);
  }

  lemma AfterData(data: seq<Byte>, rest: seq<Byte>)
    ensures var after := data + CRLF + rest;
            after[..|data|] == data && StripBreak(after[|data|..]) == rest
  {
    var after := data + CRLF + rest;
    assert after[|data|..] == CRLF + rest;
    assert CRLF <= CRLF + rest && (CRLF + rest)[2..] == rest;
  }

  /** Whatever the data holds, line breaks included, a chunked body decodes to it. */
  lemma {:induction false} DecodingUndoesEncoding(chunks: seq<Chunk>, zero: seq<Byte>, trailer: seq<Byte>)
    requires forall i :: 0 <= i < |chunks| ==> IsChunk(chunks[i])
    requires Spells(zero, 0)
    ensures Dechunk(Encode(chunks, zero, trailer)) == Data(chunks)
    decreases |chunks|
  {
    if chunks == [] {
      SpellingIsValue(zero, 0);
      FirstBreak(zero, trailer);
      HexIsItsSize(zero);
      assert (zero + CRLF + trailer)[..|zero|] == zero;
    } else {
      DechunkOne(chunks[0], Encode(chunks[1..], zero, trailer));
      DecodingUndoesEncoding(chunks[1..], zero, trailer);
    }
  }

  /** Less than a whole chunk decodes to nothing, or to its data when only its last break is cut. */
  lemma DechunkPart(chunk: Chunk, k: nat)
    requires IsChunk(chunk) && k < |EncodeChunk(chunk)|
    ensures Dechunk(EncodeChunk(chunk)[..k]) == [] || Dechunk(EncodeChunk(chunk)[..k]) == chunk.data
  {
    hide Dechunk, Spells, HexValue, IsHex, EncodeChunk;
    var head := |chunk.size| + 2;
    SpellingIsValue(chunk.size, |chunk.data|);
    PartOfChunk(chunk, k);
    if k < head {
      PartOfLine(chunk.size, k);
    } else {
      PartOfData(chunk, k - head);
    }
  }

  lemma PartOfLine(size: seq<Byte>, k: nat)
    requires IsHex(size) && k < |size| + 2
    ensures Dechunk((size + CRLF)[..k]) == []
  {
    NoBreak((size + CRLF)[..k]);
  }

  lemma PartOfData(chunk: Chunk, k: nat)
    requires IsHex(chunk.size) && HexValue(chunk.size) == |chunk.data| && k < |chunk.data| + 2
    ensures Dechunk(chunk.size + CRLF + (chunk.data + CRLF)[..k])
         == if 0 < |chunk.data| <= k then chunk.data else []
  {
    hide Dechunk, HexValue, IsHex;
    DechunkStep(chunk.size, (chunk.data + CRLF)[..k]);
    if k >= |chunk.data| {
      PartOfBreak(chunk.data, k);
      assert chunk.data + [] == chunk.data;
    }
  }

  lemma PartOfChunk(chunk: Chunk, k: nat)
    requires k < |EncodeChunk(chunk)|
    ensures k < |chunk.size| + 2 + |chunk.data| + 2
    ensures var head := |chunk.size| + 2;
            EncodeChunk(chunk)[..k]
            == if k < head then (chunk.size + CRLF)[..k]
               else chunk.size + CRLF + (chunk.data + CRLF)[..k - head]
  {
    assert EncodeChunk(chunk) == (chunk.size + CRLF) + (chunk.data + CRLF);
  }

  lemma PartOfBreak(data: seq<Byte>, k: nat)
    requires |data| <= k < |data| + 2
    ensures var rest := (data + CRLF)[..k];
            rest[..|data|] == data && Dechunk(StripBreak(rest[|data|..])) == []
  {
    var left := (data + CRLF)[..k][|data|..];
    assert |left| < 2;
    assert BreakIn(left) == None && StripBreak(left) == left;
  }

  lemma LastPart(zero: seq<Byte>, trailer: seq<Byte>, k: nat)
    requires Spells(zero, 0) && k <= |zero| + 2 + |trailer|
    ensures Dechunk((zero + CRLF + trailer)[..k]) == []
  {
    var all := zero + CRLF + trailer;
    SpellingIsValue(zero, 0);
    if k < |zero| + 2 {
      assert all[..k] == (zero + CRLF)[..k];
      NoBreak(all[..k]);
    } else {
      assert all[..k] == zero + CRLF + trailer[..k - |zero| - 2];
      DechunkStep(zero, trailer[..k - |zero| - 2]);
    }
  }

  /** A body cut short anywhere decodes to the beginning of its data. */
  lemma {:induction false} CutShortIsAPrefix(chunks: seq<Chunk>, zero: seq<Byte>, trailer: seq<Byte>, k: nat)
    requires forall i :: 0 <= i < |chunks| ==> IsChunk(chunks[i])
    requires Spells(zero, 0) && k <= |Encode(chunks, zero, trailer)|
    ensures Dechunk(Encode(chunks, zero, trailer)[..k]) <= Data(chunks)
    decreases |chunks|
  {
    hide Spells, Dechunk;
    if chunks == [] {
      LastPart(zero, trailer, k);
    } else {
      var first, rest := EncodeChunk(chunks[0]), Encode(chunks[1..], zero, trailer);
      if k < |first| {
        assert (first + rest)[..k] == first[..k];
        DechunkPart(chunks[0], k);
      } else {
        assert (first + rest)[..k] == first + rest[..k - |first|];
        DechunkOne(chunks[0], rest[..k - |first|]);
        CutShortIsAPrefix(chunks[1..], zero, trailer, k - |first|);
        PrefixThen(chunks[0].data, Dechunk(rest[..k - |first|]), Data(chunks[1..]));
      }
    }
  }

  lemma PrefixThen(a: seq<Byte>, b: seq<Byte>, c: seq<Byte>)
    requires b <= c
    ensures a + b <= a + c
  {
    assert c == b + c[|b|..];
    assert a + c == a + b + c[|b|..];
  }

  // ---------------------------------------------------------------------
  // Every size has a spelling

  function DigitOf(n: nat): Byte
    requires n < 16
  {
    (if n < 10 then 48 + n else 87 + n) as Byte
  }

  function Hex(n: nat): seq<Byte> {
    if n < 16 then [DigitOf(n)] else Hex(n / 16) + [DigitOf(n % 16)]
  }

  lemma {:induction false} HexSpells(n: nat)
    ensures Spells(Hex(n), n)
  {
    if n >= 16 {
      HexSpells(n / 16);
      assert Hex(n)[..|Hex(n)| - 1] == Hex(n / 16);
    }
  }

  /** Pieces of data as chunks, their sizes in the fewest digits. */
  function ChunksOf(pieces: seq<seq<Byte>>): seq<Chunk> {
    if pieces == [] then [] else [Chunk(Hex(|pieces[0]|), pieces[0])] + ChunksOf(pieces[1..])
  }

  lemma {:induction false} PiecesAreChunks(pieces: seq<seq<Byte>>)
    requires forall i :: 0 <= i < |pieces| ==> pieces[i] != []
    ensures forall i :: 0 <= i < |ChunksOf(pieces)| ==> IsChunk(ChunksOf(pieces)[i])
    ensures Data(ChunksOf(pieces)) == Joined(pieces)
  {
    if pieces != [] {
      HexSpells(|pieces[0]|);
      PiecesAreChunks(pieces[1..]);
      assert ChunksOf(pieces)[1..] == ChunksOf(pieces[1..]);
    }
  }

  /** Every list of non-empty pieces has an encoding, and decoding it joins them. */
  lemma EveryDataIsSent(pieces: seq<seq<Byte>>, trailer: seq<Byte>)
    requires forall i :: 0 <= i < |pieces| ==> pieces[i] != []
    ensures Dechunk(Encode(ChunksOf(pieces), Hex(0), trailer)) == Joined(pieces)
  {
    PiecesAreChunks(pieces);
    HexSpells(0);
    DecodingUndoesEncoding(ChunksOf(pieces), Hex(0), trailer);
  }
}
