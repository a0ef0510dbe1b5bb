/** How much of a request body is read: chunked transfer coding and the declared length, over a byte
    stream that may say anything. */
module Framing {
  import opened Common

  type Byte = n: nat | n < 256

  const LF: Byte := 10
  const CR: Byte := 13
  const SEMICOLON: Byte := 59
  const ZERO: Byte := 48
  const CRLF: seq<Byte> := [CR, LF]

  /** What a read ends with. */
  datatype Outcome = Body(bytes: seq<Byte>) | TooLarge | Malformed

  // Reading the stream: a position moves over it

  /** Where the line that starts at `i` ends: behind its line feed, or at `limit`, or with the stream. */
  function LineEnd(s: seq<Byte>, i: nat, limit: nat): (n: nat)
    requires i <= |s| && i <= limit
    ensures i <= n <= |s| && n <= limit
    decreases |s| - i
  {
    if i == |s| || i == limit then i else if s[i] == LF then i + 1 else LineEnd(s, i + 1, limit)
  }

  function Forward(s: seq<Byte>, at: nat, size: nat): (n: nat)
    requires at <= |s|
    ensures at <= n <= |s|
  {
    if at + size <= |s| then at + size else |s|
  }

  // Trimming, within a range of positions

  /** What is trimmed: blank bytes, the wider class of blank text, leading zeros. */
  datatype Trimmed = Bytes | Text | Zeros

  predicate Blank(b: Byte, t: Trimmed) {
    match t
    case Bytes => 9 <= b <= 13 || b == 32
    case Text => 9 <= b <= 13 || b == 32 || 28 <= b <= 31 || b == 133 || b == 160
    case Zeros => b == ZERO
  }

  function Leading(s: seq<Byte>, i: nat, hi: nat, t: Trimmed): (n: nat)
    requires i <= hi <= |s|
    ensures i <= n <= hi
    decreases hi - i
  {
    if i < hi && Blank(s[i], t) then Leading(s, i + 1, hi, t) else i
  }

  function Kept(s: seq<Byte>, lo: nat, n: nat, t: Trimmed): (k: nat)
    requires lo <= n <= |s|
    ensures lo <= k <= n
    decreases n
  {
    if n > lo && Blank(s[n - 1], t) then Kept(s, lo, n - 1, t) else n
  }

  function Position(s: seq<Byte>, i: nat, hi: nat, b: Byte): (n: nat)
    requires i <= hi <= |s|
    ensures i <= n <= hi
    decreases hi - i
  {
    if i == hi || s[i] == b then i else Position(s, i + 1, hi, b)
  }

  function Strip(s: seq<Byte>, t: Trimmed): seq<Byte> {
    var a := Leading(s, 0, |s|, t);
    s[a..Kept(s, a, |s|, t)]
  }

  /** What Python strips from bytes, and from text, by name. */
  lemma BlanksByName(b: Byte)
    ensures Blank(b, Bytes) <==> b in {9, 10, 11, 12, 13, 32}
    ensures Blank(b, Text) <==> b in {9, 10, 11, 12, 13, 28, 29, 30, 31, 32, 133, 160}
  {
  }

  lemma {:induction false} LeadingIsBlank(s: seq<Byte>, i: nat, hi: nat, t: Trimmed)
    requires i <= hi <= |s|
    ensures var n := Leading(s, i, hi, t); (forall j :: i <= j < n ==> Blank(s[j], t)) && (n < hi ==> !Blank(s[n], t))
    decreases hi - i
  {
    if i < hi && Blank(s[i], t) { LeadingIsBlank(s, i + 1, hi, t); }
  }

  lemma {:induction false} TrailingIsBlank(s: seq<Byte>, lo: nat, n: nat, t: Trimmed)
    requires lo <= n <= |s|
    ensures var k := Kept(s, lo, n, t); (forall j :: k <= j < n ==> Blank(s[j], t)) && (lo < k ==> !Blank(s[k - 1], t))
    decreases n
  {
    if n > lo && Blank(s[n - 1], t) { TrailingIsBlank(s, lo, n - 1, t); }
  }

  /** Stripping takes off blanks at both ends, all of them, and nothing else. */
  lemma StripExactly(s: seq<Byte>, t: Trimmed) returns (before: seq<Byte>, after: seq<Byte>)
    ensures s == before + Strip(s, t) + after
    ensures (forall b :: b in before ==> Blank(b, t)) && (forall b :: b in after ==> Blank(b, t))
    ensures Strip(s, t) != [] ==> !Blank(Strip(s, t)[0], t) && !Blank(Strip(s, t)[|Strip(s, t)| - 1], t)
  {
    LeadingIsBlank(s, 0, |s|, t);
    var a := Leading(s, 0, |s|, t);
    TrailingIsBlank(s, a, |s|, t);
    var k := Kept(s, a, |s|, t);
    before, after := s[..a], s[k..];
    assert Strip(s, t) == s[a..k];
    assert forall i :: 0 <= i < |after| ==> after[i] == s[k + i];
    assert a < k ==> s[a..k][0] == s[a] && s[a..k][k - a - 1] == s[k - 1];
    hide Blank, Leading, Kept, Strip;
    assert s == s[..a] + s[a..k] + s[k..];
  }

  // Numerals

  function DigitValue(b: Byte): nat {
    if 48 <= b <= 57 then b - 48 else if 97 <= b <= 102 then b - 87 else if 65 <= b <= 70 then b - 55 else 0
  }

  predicate HexDigit(b: Byte) { 48 <= b <= 57 || 97 <= b <= 102 || 65 <= b <= 70 }
  predicate DecimalDigit(b: Byte) { 48 <= b <= 57 }

  predicate AllHex(s: seq<Byte>) { forall i :: 0 <= i < |s| ==> HexDigit(s[i]) }
  predicate AllDecimal(s: seq<Byte>) { forall i :: 0 <= i < |s| ==> DecimalDigit(s[i]) }

  datatype Base = Ten | Sixteen

  /** The number the first `n` digits name. */
  function Upto(s: seq<Byte>, n: nat, base: Base): nat
    requires n <= |s|
  {
    if n == 0 then 0
    else (if base.Ten? then 10 * Upto(s, n - 1, base) else 16 * Upto(s, n - 1, base)) + DigitValue(s[n - 1])
  }

  function Value(s: seq<Byte>, base: Base): nat { Upto(s, |s|, base) }

  function DigitOf(n: nat): Byte
    requires n < 16
  {
    if n < 10 then n + 48 else n + 87
  }

  function Numeral(n: nat, base: Base): (s: seq<Byte>)
    ensures s != []
    decreases n
  {
    if base.Ten? then (if n < 10 then [DigitOf(n)] else Numeral(n / 10, base) + [DigitOf(n % 10)])
    else (if n < 16 then [DigitOf(n)] else Numeral(n / 16, base) + [DigitOf(n % 16)])
  }

  lemma DigitNames(d: nat)
    requires d < 16
    ensures DigitValue(DigitOf(d)) == d && HexDigit(DigitOf(d)) && (d < 10 ==> DecimalDigit(DigitOf(d)))
  {
  }

  const LOWER := "0123456789abcdef"
  const UPPER := "0123456789ABCDEF"

  /** The sixteen digits, by the characters they are; letters in either case. */
  lemma DigitsByName(d: nat)
    requires d < 16
    ensures DigitOf(d) == LOWER[d] as int && DigitValue(DigitOf(d)) == d
    ensures UPPER[d] as int < 256 && DigitValue(UPPER[d] as int) == d && HexDigit(UPPER[d] as int)
  {
    assert d in {0, 1, 2, 3, 4, 5, 6, 7, 8, 9, 10, 11, 12, 13, 14, 15};
  }

  /** `b` is the digit `d`, a letter in whichever case. */
  predicate Names(b: Byte, d: nat)
    requires d < 16
  {
    b == LOWER[d] as int || b == UPPER[d] as int
  }

  /** `s` spells `n` in base sixteen: any number of zeros, then its digits, each letter in the case of its choice. */
  predicate Spells(s: seq<Byte>, n: nat)
    decreases n
  {
    && s != [] && Names(s[|s| - 1], n % 16)
    && if n < 16 then AllZeros(s[..|s| - 1]) else Spells(s[..|s| - 1], n / 16)
  }

  predicate AllZeros(s: seq<Byte>) { forall i :: 0 <= i < |s| ==> s[i] == ZERO }

  lemma {:induction false} UptoSame(s: seq<Byte>, t: seq<Byte>, n: nat, base: Base)
    requires n <= |s| && n <= |t| && forall i :: 0 <= i < n ==> s[i] == t[i]
    ensures Upto(s, n, base) == Upto(t, n, base)
  {
    if n > 0 { UptoSame(s, t, n - 1, base); }
  }

  lemma ValueSnoc(s: seq<Byte>, b: Byte, base: Base)
    ensures Value(s + [b], base) == (if base.Ten? then 10 * Value(s, base) else 16 * Value(s, base)) + DigitValue(b)
  {
    UptoSame(s + [b], s, |s|, base);
  }

  lemma ValueOfOne(b: Byte, base: Base)
    ensures Value([b], base) == DigitValue(b)
  {
    assert Upto([b], 0, base) == 0;
  }

  lemma {:induction false} DecimalNames(n: nat)
    ensures Value(Numeral(n, Ten), Ten) == n && AllDecimal(Numeral(n, Ten))
  {
    if n < 10 {
      DigitNames(n);
      ValueOfOne(DigitOf(n), Ten);
    } else {
      DecimalNames(n / 10);
      DigitNames(n % 10);
      ValueSnoc(Numeral(n / 10, Ten), DigitOf(n % 10), Ten);
    }
  }

  lemma {:induction false} HexNames(n: nat)
    ensures Value(Numeral(n, Sixteen), Sixteen) == n && AllHex(Numeral(n, Sixteen))
  {
    if n < 16 {
      DigitNames(n);
      ValueOfOne(DigitOf(n), Sixteen);
    } else {
      HexNames(n / 16);
      DigitNames(n % 16);
      ValueSnoc(Numeral(n / 16, Sixteen), DigitOf(n % 16), Sixteen);
    }
  }

  lemma NamesExactly(b: Byte, d: nat)
    requires d < 16
    ensures Names(b, d) <==> HexDigit(b) && DigitValue(b) == d
  {
    DigitsByName(d);
  }

  lemma {:induction false} ZerosSpellZero(s: seq<Byte>, n: nat)
    requires n <= |s| && forall i :: 0 <= i < n ==> s[i] == ZERO
    ensures Upto(s, n, Sixteen) == 0
  {
    if n > 0 { ZerosSpellZero(s, n - 1); }
  }

  lemma {:induction false} OnlyZerosSpellZero(s: seq<Byte>, n: nat)
    requires n <= |s| && AllHex(s) && Upto(s, n, Sixteen) == 0
    ensures forall i :: 0 <= i < n ==> s[i] == ZERO
  {
    if n > 0 {
      OnlyZerosSpellZero(s, n - 1);
      assert HexDigit(s[n - 1]);
    }
  }

  /** A hexadecimal string has the value `n` if and only if it spells `n`: zeros in front and the case of letters make
      no difference, and nothing else is allowed. */
  lemma {:induction false} SpellsExactly(s: seq<Byte>, n: nat)
    ensures s != [] && AllHex(s) && Value(s, Sixteen) == n <==> Spells(s, n)
    decreases |s|
  {
    if s != [] {
      var front, last := s[..|s| - 1], s[|s| - 1];
      assert s == front + [last];
      ValueSnoc(front, last, Sixteen);
      assert AllHex(s) <==> AllHex(front) && HexDigit(last);
      NamesExactly(last, n % 16);
      if n < 16 {
        ZerosExactly(front);
      } else {
        SpellsExactly(front, n / 16);
      }
      hide Upto, Spells, HexDigit, DigitValue;
      SpellsStep(s, front, last, n);
    }
  }

  lemma ZerosExactly(s: seq<Byte>)
    ensures AllHex(s) && Value(s, Sixteen) == 0 <==> AllZeros(s)
  {
    if AllZeros(s) { ZerosSpellZero(s, |s|); }
    if AllHex(s) && Value(s, Sixteen) == 0 { OnlyZerosSpellZero(s, |s|); }
  }

  lemma SpellsStep(s: seq<Byte>, front: seq<Byte>, last: Byte, n: nat)
    requires s == front + [last] && Value(s, Sixteen) == 16 * Value(front, Sixteen) + DigitValue(last)
    requires AllHex(s) <==> AllHex(front) && HexDigit(last)
    requires Names(last, n % 16) <==> HexDigit(last) && DigitValue(last) == n % 16
    requires n < 16 ==> (AllHex(front) && Value(front, Sixteen) == 0 <==> AllZeros(front))
    requires n >= 16 ==> (front != [] && AllHex(front) && Value(front, Sixteen) == n / 16 <==> Spells(front, n / 16))
    ensures AllHex(s) && Value(s, Sixteen) == n <==> Spells(s, n)
  {
    assert s[..|s| - 1] == front && s[|s| - 1] == last;
    assert DigitValue(last) < 16;
    hide Value, AllHex, AllZeros, Names, HexDigit;
    assert front == [] ==> Value(front, Sixteen) == 0 by { EmptyValue(); }
  }

  lemma EmptyValue()
    ensures Value([], Sixteen) == 0
  {
  }

  // The chunked reader

  /** The line trimmed, cut at its first semicolon, and trimmed again. */
  function Token(s: seq<Byte>, lo: nat, hi: nat): seq<Byte>
    requires lo <= hi <= |s|
  {
    var a := Leading(s, lo, hi, Bytes);
    var b := Kept(s, a, hi, Bytes);
    var p := Position(s, a, b, SEMICOLON);
    var c := Leading(s, a, p, Bytes);
    s[c..Kept(s, c, p, Bytes)]
  }

  /** The size the line at `at` announces; none when its token is no hexadecimal number. An empty token,
      which is what the end of the stream gives, announces nothing more. */
  function Announced(s: seq<Byte>, at: nat): Option<nat>
    requires at <= |s|
  {
    var token := Token(s, at, LineEnd(s, at, at + 64));
    if token != [] && !AllHex(token) then None else Some(Value(token, Sixteen))
  }

  /** Chunk after chunk: the size line, then that many bytes, then a line end. `counted` is the sizes
      announced so far. The result says where reading stopped. */
  function Decode(s: seq<Byte>, at: nat, limit: nat, held: seq<Byte>, counted: nat): (Outcome, nat)
    requires at <= |s|
    decreases |s| - at
  {
    var line := LineEnd(s, at, at + 64);
    var size := Announced(s, at);
    if size.None? then (Malformed, line)
    else if size.value == 0 then (Body(held), LineEnd(s, line, line + 4))
    else if counted + size.value > limit then (TooLarge, line)
    else
      ProgressMade(s, at);
      var end := Forward(s, line, size.value);
      Decode(s, LineEnd(s, end, end + 4), limit, held + s[line..end], counted + size.value)
  }

  lemma ProgressMade(s: seq<Byte>, at: nat)
    requires at <= |s|
    ensures Announced(s, at) != Some(0) ==> LineEnd(s, at, at + 64) > at
  {
    if LineEnd(s, at, at + 64) == at { assert Token(s, at, at) == []; }
  }

  method ReadChunked(stream: seq<Byte>, limit: nat) returns (outcome: Outcome, at: nat, buffered: nat)
    ensures (outcome, at) == Decode(stream, 0, limit, [], 0)
    ensures buffered <= limit
    ensures outcome.Body? ==> |outcome.bytes| == buffered
  {
    hide Announced, LineEnd;
    var total, buf := 0, [];
    at := 0;
    while true
      invariant at <= |stream| && |buf| <= total <= limit
      invariant Decode(stream, 0, limit, [], 0) == Decode(stream, at, limit, buf, total)
      decreases |stream| - at
    {
      ProgressMade(stream, at);
      var size := Announced(stream, at);
      var line := LineEnd(stream, at, at + 64);
      if size.None? { return Malformed, line, |buf|; }
      if size.value == 0 {
        at := LineEnd(stream, line, line + 4);
        return Body(buf), at, |buf|;
      }
      total := total + size.value;
      if total > limit { return TooLarge, line, |buf|; }
      var end := Forward(stream, line, size.value);
      buf := buf + stream[line..end];
      at := LineEnd(stream, end, end + 4);
    }
  }

  // A message as it is sent

  /** A chunk with its size spelled out in hexadecimal, any spelling, and an extension of any length or none. */
  datatype Chunk = Chunk(data: seq<Byte>, size: seq<Byte>, extension: seq<Byte>)

  /** Chunks, the chunk of size zero, and trailer lines (RFC 9112, section 7.1). */
  datatype Message = Message(chunks: seq<Chunk>, zeros: seq<Byte>, extension: seq<Byte>, trailers: seq<seq<Byte>>)

  /** Spaces and tabs in front of an extension. */
  function Padding(e: seq<Byte>, i: nat): (n: nat)
    requires i <= |e|
    ensures i <= n <= |e| && (forall j :: i <= j < n ==> e[j] == 9 || e[j] == 32) && (n < |e| ==> e[n] != 9 && e[n] != 32)
    decreases |e| - i
  {
    if i < |e| && (e[i] == 9 || e[i] == 32) then Padding(e, i + 1) else i
  }

  /** Padding, and behind it nothing or a semicolon and whatever else has no line feed. */
  predicate Extension(e: seq<Byte>) { LF !in e && (Padding(e, 0) == |e| || e[Padding(e, 0)] == SEMICOLON) }

  predicate WellFormed(c: Chunk) {
    c.data != [] && Spells(c.size, |c.data|) && Extension(c.extension)
  }

  predicate AllWellFormed(cs: seq<Chunk>) { forall i :: 0 <= i < |cs| ==> WellFormed(cs[i]) }

  predicate Sendable(m: Message) {
    && AllWellFormed(m.chunks)
    && m.zeros != [] && (forall i :: 0 <= i < |m.zeros| ==> m.zeros[i] == ZERO) && Extension(m.extension)
    && (forall i :: 0 <= i < |m.trailers| ==> m.trailers[i] != [] && LF !in m.trailers[i])
  }

  function Payload(cs: seq<Chunk>): seq<Byte> { if cs == [] then [] else cs[0].data + Payload(cs[1..]) }

  function SizeLine(size: seq<Byte>, extension: seq<Byte>): seq<Byte> { size + extension + CRLF }

  function EncodeOne(c: Chunk): seq<Byte> { SizeLine(c.size, c.extension) + (c.data + CRLF) }

  function Lines(ts: seq<seq<Byte>>): seq<Byte> { if ts == [] then [] else ts[0] + CRLF + Lines(ts[1..]) }

  function Ending(m: Message): seq<Byte> { SizeLine(m.zeros, m.extension) + (Lines(m.trailers) + CRLF) }

  function Rest(m: Message): Message
    requires m.chunks != []
  {
    m.(chunks := m.chunks[1..])
  }

  function Encode(m: Message): seq<Byte>
    decreases |m.chunks|
  {
    if m.chunks == [] then Ending(m) else EncodeOne(m.chunks[0]) + Encode(Rest(m))
  }

  /** The size line fits what the reader takes of a line. */
  predicate Fits(size: seq<Byte>, extension: seq<Byte>) { |SizeLine(size, extension)| <= 64 }

  predicate AllFit(cs: seq<Chunk>) { forall i :: 0 <= i < |cs| ==> Fits(cs[i].size, cs[i].extension) }

  // Reading in a stream that holds a message

  /** `t` stands in the stream at `at`. */
  predicate Holds(s: seq<Byte>, at: nat, t: seq<Byte>) { at + |t| <= |s| && s[at..at + |t|] == t }

  lemma HoldsParts(s: seq<Byte>, at: nat, t: seq<Byte>, u: seq<Byte>)
    requires Holds(s, at, t + u)
    ensures Holds(s, at, t) && Holds(s, at + |t|, u)
  {
    assert forall i :: 0 <= i < |t| ==> s[at..at + |t + u|][i] == t[i];
    assert forall i :: 0 <= i < |u| ==> s[at..at + |t + u|][|t| + i] == u[i];
  }

  lemma HoldsItself(s: seq<Byte>)
    ensures Holds(s, 0, s)
  {
  }

  lemma HoldsAt(s: seq<Byte>, at: nat, t: seq<Byte>)
    requires Holds(s, at, t)
    ensures forall i :: 0 <= i < |t| ==> s[at + i] == t[i]
  {
    forall i | 0 <= i < |t| ensures s[at + i] == t[i] { assert s[at..at + |t|][i] == t[i]; }
  }

  lemma {:induction false} LineEndIs(s: seq<Byte>, i: nat, k: nat, limit: nat)
    requires i <= k < |s| && k < limit && s[k] == LF && forall t :: i <= t < k ==> s[t] != LF
    ensures LineEnd(s, i, limit) == k + 1
    decreases k - i
  {
    if i < k { LineEndIs(s, i + 1, k, limit); }
  }

  lemma {:induction false} KeptIs(s: seq<Byte>, lo: nat, m: nat, n: nat, t: Trimmed)
    requires lo < m <= n <= |s| && !Blank(s[m - 1], t) && forall i :: m <= i < n ==> Blank(s[i], t)
    ensures Kept(s, lo, n, t) == m
    decreases n
  {
    if m < n { KeptIs(s, lo, m, n - 1, t); }
  }

  lemma {:induction false} KeptBeyond(s: seq<Byte>, lo: nat, m: nat, n: nat, t: Trimmed)
    requires lo < m <= n <= |s| && !Blank(s[m - 1], t)
    ensures m <= Kept(s, lo, n, t)
    decreases n
  {
    if m < n { KeptBeyond(s, lo, m, n - 1, t); }
  }

  lemma {:induction false} PositionIs(s: seq<Byte>, i: nat, k: nat, hi: nat, b: Byte)
    requires i <= k <= hi <= |s| && (k < hi ==> s[k] == b) && forall t :: i <= t < k ==> s[t] != b
    ensures Position(s, i, hi, b) == k
    decreases k - i
  {
    if i < k { PositionIs(s, i + 1, k, hi, b); }
  }

  /** Whatever the extension, the token is the size as it was spelled: from `lo` to `m`. */
  lemma TokenIsSize(s: seq<Byte>, lo: nat, m: nat, p: nat, hi: nat)
    requires lo < m <= p <= hi <= |s| && forall i :: lo <= i < m ==> HexDigit(s[i])
    requires (forall i :: m <= i < p ==> Blank(s[i], Bytes)) && (p < hi ==> s[p] == SEMICOLON)
    ensures Token(s, lo, hi) == s[lo..m]
  {
    assert HexDigit(s[lo]) && HexDigit(s[m - 1]);
    assert Leading(s, lo, hi, Bytes) == lo;
    var k := Kept(s, lo, hi, Bytes);
    if p < hi {
      KeptBeyond(s, lo, p + 1, hi, Bytes);
      PositionIs(s, lo, p, k, SEMICOLON);
      assert Leading(s, lo, p, Bytes) == lo;
      KeptIs(s, lo, m, p, Bytes);
    } else {
      KeptIs(s, lo, m, hi, Bytes);
      PositionIs(s, lo, m, k, SEMICOLON);
      assert Leading(s, lo, m, Bytes) == lo;
      KeptIs(s, lo, m, m, Bytes);
    }
  }

  lemma {:induction false} LineEndBy(s: seq<Byte>, i: nat, k: nat, limit: nat)
    requires i <= k < |s| && i <= limit && s[k] == LF
    ensures LineEnd(s, i, limit) <= k + 1
    decreases k - i
  {
    if i < k && i < limit && s[i] != LF { LineEndBy(s, i + 1, k, limit); }
  }

  lemma {:induction false} LineEndCut(s: seq<Byte>, i: nat, limit: nat)
    requires i <= limit <= |s| && forall t :: i <= t < limit ==> s[t] != LF
    ensures LineEnd(s, i, limit) == limit
    decreases limit - i
  {
    if i < limit { LineEndCut(s, i + 1, limit); }
  }

  /** How far the reader takes a size line: all of it, or 64 bytes. */
  function Taken(size: seq<Byte>, extension: seq<Byte>): nat {
    if Fits(size, extension) then |SizeLine(size, extension)| else 64
  }

  /** The part of the size's spelling that lies within what is taken. */
  function Seen(size: seq<Byte>): seq<Byte> { if |size| <= 64 then size else size[..64] }

  lemma SizeLineBytes(size: seq<Byte>, extension: seq<Byte>, s: seq<Byte>, at: nat)
    requires Extension(extension) && AllHex(size) && Holds(s, at, SizeLine(size, extension))
    ensures var m, end := at + |size|, at + |SizeLine(size, extension)|;
      && end <= |s| && s[end - 1] == LF && s[end - 2] == CR
      && (forall i :: at <= i < m ==> s[i] == size[i - at])
      && (forall i :: at <= i < end - 1 ==> s[i] != LF)
      && (forall i :: m <= i < m + Padding(extension, 0) ==> Blank(s[i], Bytes))
      && (Padding(extension, 0) < |extension| ==> s[m + Padding(extension, 0)] == SEMICOLON)
  {
    var line := SizeLine(size, extension);
    HoldsAt(s, at, line);
    var m, end := at + |size|, at + |line|;
    assert line[|line| - 1] == LF && line[|line| - 2] == CR;
    assert forall i :: at <= i < m ==> s[i] == size[i - at] && HexDigit(size[i - at]);
    assert forall i :: m <= i < end - 2 ==> s[i] == extension[i - m];
  }

  lemma SizeLineEnds(size: seq<Byte>, extension: seq<Byte>, s: seq<Byte>, at: nat)
    requires Extension(extension) && AllHex(size) && Holds(s, at, SizeLine(size, extension))
    ensures LineEnd(s, at, at + 64) == at + Taken(size, extension)
  {
    SizeLineBytes(size, extension, s, at);
    var end := at + |SizeLine(size, extension)|;
    if Fits(size, extension) { LineEndIs(s, at, end - 1, at + 64); } else { LineEndCut(s, at, at + 64); }
  }

  /** What a size line announces: the size as spelled, as far as it is taken. */
  lemma SizeLineAnnounces(size: seq<Byte>, extension: seq<Byte>, s: seq<Byte>, at: nat)
    requires Extension(extension) && size != [] && AllHex(size) && Holds(s, at, SizeLine(size, extension))
    ensures Announced(s, at) == Some(Value(Seen(size), Sixteen))
  {
    hide Token, LineEnd, Value;
    SizeLineBytes(size, extension, s, at);
    SizeLineEnds(size, extension, s, at);
    var m, hi := at + |Seen(size)|, at + Taken(size, extension);
    var p := SizeLinePadding(size, extension, s, at);
    TokenIsSize(s, at, m, p, hi);
    assert s[at..m] == Seen(size);
  }

  /** Behind the size, as far as the line is taken: padding, and then a semicolon or no more. */
  lemma SizeLinePadding(size: seq<Byte>, extension: seq<Byte>, s: seq<Byte>, at: nat) returns (p: nat)
    requires Extension(extension) && size != [] && AllHex(size) && Holds(s, at, SizeLine(size, extension))
    ensures var m, hi := at + |Seen(size)|, at + Taken(size, extension);
      && at < m <= p <= hi <= |s| && (forall i :: at <= i < m ==> s[i] == size[i - at] && HexDigit(s[i]))
      && (forall i :: m <= i < p ==> Blank(s[i], Bytes)) && (p < hi ==> s[p] == SEMICOLON)
  {
    SizeLineBytes(size, extension, s, at);
    var m, hi := at + |Seen(size)|, at + Taken(size, extension);
    assert forall i :: at <= i < m ==> s[i] == size[i - at] && HexDigit(size[i - at]);
    var pad := at + |size| + Padding(extension, 0);
    p := if Padding(extension, 0) < |extension| && pad < hi then pad else hi;
  }

  /** A chunk's size line is consumed whole if and only if it is at most 64 bytes long. */
  lemma LineWholeExactly(c: Chunk, s: seq<Byte>, at: nat)
    requires WellFormed(c) && Holds(s, at, EncodeOne(c))
    ensures LineEnd(s, at, at + 64) == at + |SizeLine(c.size, c.extension)| <==> |c.size| + |c.extension| + 2 <= 64
  {
    SpellsExactly(c.size, |c.data|);
    HoldsParts(s, at, SizeLine(c.size, c.extension), c.data + CRLF);
    SizeLineEnds(c.size, c.extension, s, at);
  }

  lemma LineEndOfCrlf(s: seq<Byte>, at: nat)
    requires Holds(s, at, CRLF)
    ensures LineEnd(s, at, at + 4) == at + 2
  {
    HoldsAt(s, at, CRLF);
    LineEndIs(s, at, at + 1, at + 4);
  }

  /** One turn of the reader: the bytes it takes for a chunk, and where it goes on. */
  function ReadChunk(s: seq<Byte>, at: nat): Option<(seq<Byte>, nat)>
    requires at <= |s|
  {
    var size, line := Announced(s, at), LineEnd(s, at, at + 64);
    if size == None || size == Some(0) then None
    else
      var end := Forward(s, line, size.value);
      Some((s[line..end], LineEnd(s, end, end + 4)))
  }

  lemma ReadChunkDecodes(s: seq<Byte>, at: nat, limit: nat, held: seq<Byte>, counted: nat)
    requires at <= |s| && ReadChunk(s, at).Some?
    ensures var (data, next) := ReadChunk(s, at).value; at < next <= |s|
    ensures var (data, next) := ReadChunk(s, at).value; counted + Announced(s, at).value <= limit ==>
      Decode(s, at, limit, held, counted) == Decode(s, next, limit, held + data, counted + Announced(s, at).value)
  {
    hide Announced, LineEnd;
    ProgressMade(s, at);
  }

  lemma SpelledSizeSeen(size: seq<Byte>, extension: seq<Byte>)
    requires Fits(size, extension)
    ensures Seen(size) == size
  {
  }

  lemma FittingChunkRead(c: Chunk, s: seq<Byte>, at: nat)
    requires WellFormed(c) && Fits(c.size, c.extension) && Holds(s, at, EncodeOne(c))
    ensures ReadChunk(s, at) == Some((c.data, at + |EncodeOne(c)|)) && Announced(s, at) == Some(|c.data|)
  {
    hide Announced, LineEnd, Value, Spells;
    SpellsExactly(c.size, |c.data|);
    SpelledSizeSeen(c.size, c.extension);
    HoldsParts(s, at, SizeLine(c.size, c.extension), c.data + CRLF);
    SizeLineEnds(c.size, c.extension, s, at);
    SizeLineAnnounces(c.size, c.extension, s, at);
    var line := at + |SizeLine(c.size, c.extension)|;
    HoldsParts(s, line, c.data, CRLF);
    LineEndOfCrlf(s, line + |c.data|);
    assert s[line..line + |c.data|] == c.data;
  }

  /** A stretch that repeats with a period and starts with a line feed in its first period has one in its last. */
  lemma {:induction false} PeriodicLineFeed(s: seq<Byte>, k: nat, period: nat, end: nat) returns (last: nat)
    requires 0 < period && k < end + period <= |s| && s[k] == LF
    requires forall i :: k <= i < end ==> s[i] == s[i + period]
    ensures end <= last < end + period && s[last] == LF
    decreases end + period - k
  {
    if k < end { last := PeriodicLineFeed(s, k + period, period, end); } else { last := k; }
  }

  lemma ShiftedBytes(s: seq<Byte>, data: seq<Byte>, at: nat, period: nat, i: nat)
    requires Holds(s, at, data) && Holds(s, at + period, data) && at <= i < at + |data|
    ensures s[i] == s[i + period]
  {
    HoldsAt(s, at, data);
    HoldsAt(s, at + period, data);
    assert s[at + (i - at)] == data[i - at] && s[at + period + (i - at)] == data[i - at];
  }

  /** Bytes that stand at `from` and again `period` behind, with a line feed just before the second place: a line
      ends within a period behind the first copy. */
  lemma RepeatedDataEndsLine(s: seq<Byte>, data: seq<Byte>, from: nat, period: nat)
    requires 0 < period && Holds(s, from, data) && Holds(s, from + period, data) && s[from + period - 1] == LF
    ensures var end := from + |data|; LineEnd(s, end, end + 4) <= end + period
  {
    hide LineEnd;
    var end := from + |data|;
    forall i | from + period - 1 <= i < end ensures s[i] == s[i + period] { ShiftedBytes(s, data, from, period, i); }
    var last := PeriodicLineFeed(s, from + period - 1, period, end);
    LineEndBy(s, end, last, end + 4);
  }

  lemma LongLinePlaces(c: Chunk, s: seq<Byte>, at: nat)
    requires WellFormed(c) && !Fits(c.size, c.extension) && Holds(s, at, EncodeOne(c))
    ensures var l := |SizeLine(c.size, c.extension)|;
      && l > 64 && |EncodeOne(c)| == l + |c.data| + 2 && at + |EncodeOne(c)| <= |s|
      && LineEnd(s, at, at + 64) == at + 64 && s[at + l - 1] == LF && Holds(s, at + l, c.data)
  {
    hide LineEnd, Value, SizeLine, Spells;
    SpellsExactly(c.size, |c.data|);
    HoldsParts(s, at, SizeLine(c.size, c.extension), c.data + CRLF);
    SizeLineEnds(c.size, c.extension, s, at);
    SizeLineBytes(c.size, c.extension, s, at);
    HoldsParts(s, at + |SizeLine(c.size, c.extension)|, c.data, CRLF);
  }

  lemma ReadChunkHolds(s: seq<Byte>, at: nat, data: seq<Byte>, next: nat)
    requires at <= |s| && ReadChunk(s, at) == Some((data, next))
    ensures var line := LineEnd(s, at, at + 64);
      Holds(s, line, data) && next == LineEnd(s, line + |data|, line + |data| + 4)
  {
    hide Announced, LineEnd;
  }

  lemma MisreadEndsEarly(s: seq<Byte>, at: nat, l: nat, data: seq<Byte>, next: nat)
    requires l > 64 && at + l <= |s| && s[at + l - 1] == LF && Holds(s, at + l, data)
    requires LineEnd(s, at, at + 64) == at + 64 && ReadChunk(s, at) == Some((data, next))
    ensures next <= at + l + |data|
  {
    hide Holds, ReadChunk, LineEnd;
    var from, period := at + 64, l - 64;
    assert from + period == at + l;
    ReadChunkHolds(s, at, data, next);
    RepeatedDataEndsLine(s, data, from, period);
  }

  /** A chunk whose size line does not fit cannot come out as it was sent: if its bytes did, they would repeat
      the end of the size line, whose line feed then ends the reading too early. */
  lemma LongLineMisread(c: Chunk, s: seq<Byte>, at: nat)
    requires WellFormed(c) && !Fits(c.size, c.extension) && Holds(s, at, EncodeOne(c))
    ensures ReadChunk(s, at) != Some((c.data, at + |EncodeOne(c)|))
  {
    hide *;
    LongLinePlaces(c, s, at);
    if ReadChunk(s, at) == Some((c.data, at + |EncodeOne(c)|)) {
      MisreadEndsEarly(s, at, |SizeLine(c.size, c.extension)|, c.data, at + |EncodeOne(c)|);
    }
  }

  /** A chunk is read as it was sent, bytes and place, if and only if its size line fits. */
  lemma ChunkReadExactly(c: Chunk, s: seq<Byte>, at: nat)
    requires WellFormed(c) && Holds(s, at, EncodeOne(c))
    ensures ReadChunk(s, at) == Some((c.data, at + |EncodeOne(c)|)) <==> Fits(c.size, c.extension)
  {
    if Fits(c.size, c.extension) { FittingChunkRead(c, s, at); } else { LongLineMisread(c, s, at); }
  }

  lemma EndAnnounces(m: Message, s: seq<Byte>, at: nat)
    requires Sendable(m) && Holds(s, at, Ending(m))
    ensures Announced(s, at) == Some(0)
  {
    HoldsParts(s, at, SizeLine(m.zeros, m.extension), Lines(m.trailers) + CRLF);
    assert AllHex(m.zeros);
    SizeLineAnnounces(m.zeros, m.extension, s, at);
    ZerosSpellZero(Seen(m.zeros), |Seen(m.zeros)|);
  }

  lemma TrailerLineEnds(ts: seq<seq<Byte>>, s: seq<Byte>, at: nat)
    requires ts != [] && Holds(s, at, Lines(ts) + CRLF)
    ensures LineEnd(s, at, at + 4) < at + |Lines(ts) + CRLF|
  {
    hide LineEnd;
    var t := ts[0] + CRLF;
    assert Lines(ts) + CRLF == t + (Lines(ts[1..]) + CRLF);
    HoldsParts(s, at, t, Lines(ts[1..]) + CRLF);
    HoldsAt(s, at, t);
    assert t[|t| - 1] == LF;
    LineEndBy(s, at, at + |t| - 1, at + 4);
  }

  /** The end of a message is recognised whatever follows it, and passed whole if and only if its size line fits
      and there is no trailer; otherwise reading stops before it. */
  lemma EndStops(m: Message, s: seq<Byte>, at: nat)
    requires Sendable(m) && Holds(s, at, Ending(m))
    ensures var line := LineEnd(s, at, at + 64); var stop := LineEnd(s, line, line + 4);
      && stop <= at + |Ending(m)|
      && (stop == at + |Ending(m)| <==> Fits(m.zeros, m.extension) && m.trailers == [])
  {
    hide LineEnd;
    var l := |SizeLine(m.zeros, m.extension)|;
    HoldsParts(s, at, SizeLine(m.zeros, m.extension), Lines(m.trailers) + CRLF);
    assert AllHex(m.zeros);
    SizeLineEnds(m.zeros, m.extension, s, at);
    SizeLineBytes(m.zeros, m.extension, s, at);
    if !Fits(m.zeros, m.extension) {
      LineEndBy(s, at + 64, at + l - 1, at + 68);
    } else if m.trailers == [] {
      HoldsParts(s, at + l, [], CRLF);
      LineEndOfCrlf(s, at + l);
    } else {
      TrailerLineEnds(m.trailers, s, at + l);
    }
  }

  lemma EndDecodes(m: Message, s: seq<Byte>, at: nat, limit: nat, held: seq<Byte>, counted: nat)
    requires Sendable(m) && Holds(s, at, Ending(m))
    ensures var (outcome, stop) := Decode(s, at, limit, held, counted);
      outcome == Body(held) && (stop == at + |Ending(m)| <==> Fits(m.zeros, m.extension) && m.trailers == [])
  {
    hide Announced, LineEnd;
    EndAnnounces(m, s, at);
    EndStops(m, s, at);
  }

  lemma ChunkDecodes(c: Chunk, s: seq<Byte>, at: nat, limit: nat, held: seq<Byte>, counted: nat)
    requires WellFormed(c) && Fits(c.size, c.extension) && Holds(s, at, EncodeOne(c))
    ensures counted + |c.data| > limit ==> Decode(s, at, limit, held, counted).0 == TooLarge
    ensures counted + |c.data| <= limit ==>
      Decode(s, at, limit, held, counted) == Decode(s, at + |EncodeOne(c)|, limit, held + c.data, counted + |c.data|)
  {
    hide Announced, LineEnd, Value;
    FittingChunkRead(c, s, at);
    ReadChunkDecodes(s, at, limit, held, counted);
  }

  /** Chunked decoding undoes chunked encoding for every message whose chunk lines fit, whatever stands before
      and behind it: the body is the payload, trailers or not, and a payload over the limit is refused. Reading
      stops where the message ends exactly when the last size line fits too and no trailer is sent. */
  lemma {:induction false} RoundTrip(m: Message, s: seq<Byte>, at: nat, limit: nat, held: seq<Byte>, counted: nat)
    requires Sendable(m) && AllFit(m.chunks) && counted <= limit && Holds(s, at, Encode(m))
    ensures var (outcome, stop) := Decode(s, at, limit, held, counted);
      if counted + |Payload(m.chunks)| > limit then outcome == TooLarge
      else
        && outcome == Body(held + Payload(m.chunks))
        && (stop == at + |Encode(m)| <==> Fits(m.zeros, m.extension) && m.trailers == [])
    decreases |m.chunks|
  {
    hide Decode, WellFormed, Fits, Ending;
    if m.chunks == [] {
      EndDecodes(m, s, at, limit, held, counted);
      assert held + [] == held;
    } else {
      var c, r := m.chunks[0], Rest(m);
      HoldsParts(s, at, EncodeOne(c), Encode(r));
      ChunkDecodes(c, s, at, limit, held, counted);
      if counted + |c.data| <= limit {
        RoundTrip(r, s, at + |EncodeOne(c)|, limit, held + c.data, counted + |c.data|);
        assert held + c.data + Payload(r.chunks) == held + Payload(m.chunks);
      }
    }
  }

  /** Every chunk comes out with its own bytes at its own place, and reading stops where the message ends. */
  ghost predicate ReadAsSent(m: Message, s: seq<Byte>, at: nat)
    requires Holds(s, at, Encode(m))
    decreases |m.chunks|
  {
    if m.chunks == [] then
      var line := LineEnd(s, at, at + 64);
      Announced(s, at) == Some(0) && LineEnd(s, line, line + 4) == at + |Encode(m)|
    else
      var c := m.chunks[0];
      HoldsParts(s, at, EncodeOne(c), Encode(Rest(m)));
      ReadChunk(s, at) == Some((c.data, at + |EncodeOne(c)|)) && ReadAsSent(Rest(m), s, at + |EncodeOne(c)|)
  }

  /** A message is read as it was sent if and only if every size line fits, the last included, and there is no
      trailer. */
  lemma {:induction false} ReadAsSentExactly(m: Message, s: seq<Byte>, at: nat)
    requires Sendable(m) && Holds(s, at, Encode(m))
    ensures ReadAsSent(m, s, at) <==> AllFit(m.chunks) && Fits(m.zeros, m.extension) && m.trailers == []
    decreases |m.chunks|
  {
    hide Announced, LineEnd, WellFormed, Fits, Ending, ReadChunk;
    if m.chunks == [] {
      EndAnnounces(m, s, at);
      EndStops(m, s, at);
    } else {
      var c := m.chunks[0];
      HoldsParts(s, at, EncodeOne(c), Encode(Rest(m)));
      ChunkReadExactly(c, s, at);
      ReadAsSentExactly(Rest(m), s, at + |EncodeOne(c)|);
      assert forall i :: 0 <= i < |Rest(m).chunks| ==> Rest(m).chunks[i] == m.chunks[i + 1];
      assert AllFit(m.chunks) <==> Fits(c.size, c.extension) && AllFit(Rest(m).chunks);
    }
  }

  /** The stream of the next lemma, piece by piece. */
  lemma LongExtensionBytes(e: seq<Byte>)
    requires Extension(e) && |e| == 63
    ensures var m := Message([Chunk([ZERO], [49], e)], [ZERO], [], []); var s := Encode(m);
      && Sendable(m) && Payload(m.chunks) == [ZERO] && |s| == 74
      && Holds(s, 0, SizeLine([49], e)) && Holds(s, 66, SizeLine([ZERO], []))
      && s[64..65] == [CR] && s[65] == LF && s[69] == ZERO && s[70] == CR && s[71] == LF
  {
    var m := Message([Chunk([ZERO], [49], e)], [ZERO], [], []);
    ValueOfOne(49, Sixteen);
    assert Encode(Rest(m)) == Ending(Rest(m)) == SizeLine([ZERO], []) + CRLF;
    var s := SizeLine([49], e) + SizeLine([ZERO], []) + SizeLine([ZERO], []) + CRLF;
    assert Encode(m) == s;
    assert |SizeLine([49], e)| == 66 && SizeLine([49], e)[64..66] == CRLF;
    assert s[..66] == SizeLine([49], e) && s[66..69] == SizeLine([ZERO], []) && s[69..72] == SizeLine([ZERO], []);
  }

  /** The payload's zero read as a size line, and what stands behind it. */
  lemma ZeroLineStops(s: seq<Byte>, at: nat, limit: nat, held: seq<Byte>, counted: nat)
    requires Holds(s, at, SizeLine([ZERO], [])) && at + 6 <= |s|
    requires s[at + 3] == ZERO && s[at + 4] == CR && s[at + 5] == LF
    ensures Decode(s, at, limit, held, counted) == (Body(held), at + 6)
  {
    ValueOfOne(ZERO, Sixteen);
    SizeLineAnnounces([ZERO], [], s, at);
    SizeLineEnds([ZERO], [], s, at);
    LineEndIs(s, at + 3, at + 5, at + 7);
    hide LineEnd, Announced, Value, Holds, SizeLine;
  }

  lemma LongExtensionTurn(s: seq<Byte>, e: seq<Byte>)
    requires Extension(e) && |e| == 63 && Holds(s, 0, SizeLine([49], e)) && s[64..65] == [CR] && s[65] == LF
    ensures ReadChunk(s, 0) == Some(([CR], 66)) && Announced(s, 0) == Some(1)
  {
    ValueOfOne(49, Sixteen);
    SizeLineAnnounces([49], e, s, 0);
    SizeLineEnds([49], e, s, 0);
    LineEndIs(s, 65, 65, 69);
    hide LineEnd, Announced, Value;
  }

  /** A semicolon and 62 more bytes, and a payload of one byte: what comes back is a carriage return, and reading
      stops in the middle of the message. */
  lemma LongExtensionMisread(e: seq<Byte>)
    requires Extension(e) && |e| == 63
    ensures var m := Message([Chunk([ZERO], [49], e)], [ZERO], [], []);
      && Sendable(m) && Payload(m.chunks) == [ZERO]
      && Decode(Encode(m), 0, 1000, [], 0) == (Body([CR]), 72) && |Encode(m)| == 74
  {
    hide *;
    LongExtensionBytes(e);
    var s := Encode(Message([Chunk([ZERO], [49], e)], [ZERO], [], []));
    LongExtensionTurn(s, e);
    ReadChunkDecodes(s, 0, 1000, [], 0);
    ZeroLineStops(s, 66, 1000, [CR], 1);
    assert [] + [CR] == [CR];
  }

  /** A message with a trailer: reading stops 3 bytes before its end. */
  lemma TrailerLeftUnread()
    ensures var m := Message([], [ZERO], [], [[65, 58, 49]]);
      Sendable(m) && Decode(Encode(m), 0, 1000, [], 0) == (Body([]), 7) && |Encode(m)| == 10
  {
    hide *;
    TrailerBytes();
    ZeroLineThenFour(Encode(Message([], [ZERO], [], [[65, 58, 49]])));
  }

  lemma TrailerBytes()
    ensures var m := Message([], [ZERO], [], [[65, 58, 49]]);
      Sendable(m) && Encode(m) == [ZERO, CR, LF, 65, 58, 49, CR, LF, CR, LF]
  {
    var m := Message([], [ZERO], [], [[65, 58, 49]]);
    assert Lines(m.trailers) == [65, 58, 49] + CRLF + [];
  }

  lemma ZeroLineThenFour(s: seq<Byte>)
    requires s == [ZERO, CR, LF, 65, 58, 49, CR, LF, CR, LF]
    ensures Decode(s, 0, 1000, [], 0) == (Body([]), 7)
  {
    assert Holds(s, 0, SizeLine([ZERO], []));
    ValueOfOne(ZERO, Sixteen);
    SizeLineAnnounces([ZERO], [], s, 0);
    SizeLineEnds([ZERO], [], s, 0);
    LineEndCut(s, 3, 7);
    hide LineEnd, Announced, Value, SizeLine, Holds;
  }

  /** The body in chunks of at most `k` bytes, their sizes in plain hexadecimal. */
  function InPieces(body: seq<Byte>, k: nat): seq<Chunk>
    requires 0 < k
    decreases |body|
  {
    if body == [] then []
    else
      var n := if |body| < k then |body| else k;
      [Chunk(body[..n], Numeral(n, Sixteen), [])] + InPieces(body[n..], k)
  }

  lemma {:induction false} NumeralGrows(m: nat, n: nat)
    requires m <= n
    ensures |Numeral(m, Sixteen)| <= |Numeral(n, Sixteen)|
    decreases n
  {
    if m >= 16 { NumeralGrows(m / 16, n / 16); }
  }

  /** Every size has a spelling. */
  lemma EveryChunkEncodes(data: seq<Byte>)
    requires data != []
    ensures WellFormed(Chunk(data, Numeral(|data|, Sixteen), []))
  {
    hide Numeral, Spells, Value;
    HexNames(|data|);
    SpellsExactly(Numeral(|data|, Sixteen), |data|);
  }

  lemma {:induction false} PiecesAreSendable(body: seq<Byte>, k: nat)
    requires 0 < k && |Numeral(k, Sixteen)| <= 62
    ensures var cs := InPieces(body, k); AllWellFormed(cs) && AllFit(cs) && Payload(cs) == body
    decreases |body|
  {
    hide WellFormed;
    if body != [] {
      var n := if |body| < k then |body| else k;
      EveryChunkEncodes(body[..n]);
      NumeralGrows(n, k);
      PiecesAreSendable(body[n..], k);
      assert body == body[..n] + body[n..];
    }
  }

  lemma WholeMessageArrives(m: Message, limit: nat)
    requires Sendable(m) && AllFit(m.chunks) && Fits(m.zeros, m.extension) && m.trailers == [] && |Payload(m.chunks)| <= limit
    ensures Decode(Encode(m), 0, limit, [], 0) == (Body(Payload(m.chunks)), |Encode(m)|)
  {
    hide Sendable, Fits, Decode, Encode, AllFit, Holds, Payload;
    HoldsItself(Encode(m));
    RoundTrip(m, Encode(m), 0, limit, [], 0);
    assert [] + Payload(m.chunks) == Payload(m.chunks);
  }

  /** Any body within the limit, of any bytes and any length, sent in pieces of any size whose numeral fits the
      line, comes back as it was, and the whole message is read. */
  lemma EveryBodyArrives(body: seq<Byte>, k: nat, limit: nat)
    requires 0 < k && |Numeral(k, Sixteen)| <= 62 && |body| <= limit
    ensures var stream := Encode(Message(InPieces(body, k), [ZERO], [], []));
      Decode(stream, 0, limit, [], 0) == (Body(body), |stream|)
  {
    hide InPieces, Decode, Encode, AllFit, Payload, Numeral, AllWellFormed;
    PiecesAreSendable(body, k);
    WholeMessageArrives(Message(InPieces(body, k), [ZERO], [], []), limit);
  }

  // Which streams end in a body

  /** Where the reader goes on after the chunk announced at `at`. */
  function Next(s: seq<Byte>, at: nat): (n: nat)
    requires at <= |s| && Announced(s, at).Some? && Announced(s, at).value > 0
    ensures at < n <= |s|
  {
    ProgressMade(s, at);
    ReadChunk(s, at).value.1
  }

  /** The chunks at `at` announce these sizes one after the other, and lead to the size line at `last`. */
  ghost predicate Leads(s: seq<Byte>, at: nat, sizes: seq<nat>, last: nat)
    requires at <= |s|
    decreases |sizes|
  {
    if sizes == [] then last == at
    else sizes[0] > 0 && Announced(s, at) == Some(sizes[0]) && Leads(s, Next(s, at), sizes[1..], last)
  }

  /** Every one of these chunks is there to its last byte. */
  ghost predicate Whole(s: seq<Byte>, at: nat, sizes: seq<nat>, last: nat)
    requires at <= |s| && Leads(s, at, sizes, last)
    decreases |sizes|
  {
    sizes == [] || (LineEnd(s, at, at + 64) + sizes[0] <= |s| && Whole(s, Next(s, at), sizes[1..], last))
  }

  function Sum(sizes: seq<nat>): nat { if sizes == [] then 0 else sizes[0] + Sum(sizes[1..]) }

  /** The bytes of these chunks, as far as they are there. */
  ghost function Gathered(s: seq<Byte>, at: nat, sizes: seq<nat>, last: nat): seq<Byte>
    requires at <= |s| && Leads(s, at, sizes, last)
    decreases |sizes|
  {
    if sizes == [] then [] else ReadChunk(s, at).value.0 + Gathered(s, Next(s, at), sizes[1..], last)
  }

  /** The size line between `lo` and `hi` spells no size: it is blank, or only an extension, or not there. */
  predicate NoSize(s: seq<Byte>, lo: nat, hi: nat)
    requires lo <= hi <= |s|
  {
    var first := Leading(s, lo, hi, Bytes);
    first == hi || s[first] == SEMICOLON
  }

  lemma {:induction false} LeadingStops(s: seq<Byte>, i: nat, hi: nat, t: Trimmed)
    requires i <= hi <= |s|
    ensures var n := Leading(s, i, hi, t); n < hi ==> !Blank(s[n], t)
    decreases hi - i
  {
    if i < hi && Blank(s[i], t) { LeadingStops(s, i + 1, hi, t); }
  }

  lemma {:induction false} PositionAfter(s: seq<Byte>, i: nat, hi: nat, b: Byte)
    requires i < hi <= |s| && s[i] != b
    ensures i < Position(s, i, hi, b)
  {
  }

  /** A token is empty exactly on a line that spells no size. */
  lemma TokenEmptyExactly(s: seq<Byte>, lo: nat, hi: nat)
    requires lo <= hi <= |s|
    ensures Token(s, lo, hi) == [] <==> NoSize(s, lo, hi)
  {
    LeadingStops(s, lo, hi, Bytes);
    var a := Leading(s, lo, hi, Bytes);
    if a < hi {
      KeptBeyond(s, a, a + 1, hi, Bytes);
      if s[a] != SEMICOLON {
        var p := Position(s, a, Kept(s, a, hi, Bytes), SEMICOLON);
        PositionAfter(s, a, Kept(s, a, hi, Bytes), SEMICOLON);
        assert Leading(s, a, p, Bytes) == a;
        KeptBeyond(s, a, a + 1, p, Bytes);
      }
    }
  }

  lemma NothingAtTheEnd(s: seq<Byte>)
    ensures LineEnd(s, |s|, |s| + 64) == |s| && Token(s, |s|, |s|) == [] && Announced(s, |s|) == Some(0)
  {
  }

  /** A chain that met the end of the stream stays there. */
  lemma {:induction false} TruncatedLeadsToTheEnd(s: seq<Byte>, at: nat, sizes: seq<nat>, last: nat)
    requires at <= |s| && Leads(s, at, sizes, last) && !Whole(s, at, sizes, last)
    ensures last == |s|
    decreases |sizes|
  {
    hide Announced, LineEnd;
    if LineEnd(s, at, at + 64) + sizes[0] > |s| {
      assert Next(s, at) == |s|;
      NothingAtTheEnd(s);
    } else {
      TruncatedLeadsToTheEnd(s, Next(s, at), sizes[1..], last);
    }
  }

  /** Reading along a chain. */
  lemma {:induction false} LeadsDecodes(s: seq<Byte>, at: nat, sizes: seq<nat>, last: nat, limit: nat, held: seq<Byte>, counted: nat)
    requires at <= |s| && Leads(s, at, sizes, last) && counted + Sum(sizes) <= limit
    ensures last <= |s|
    ensures Decode(s, at, limit, held, counted)
      == Decode(s, last, limit, held + Gathered(s, at, sizes, last), counted + Sum(sizes))
    decreases |sizes|
  {
    hide Decode, Announced, ReadChunk;
    if sizes == [] {
      assert held + [] == held;
    } else {
      NextRead(s, at);
      var data := ReadChunk(s, at).value.0;
      ReadChunkDecodes(s, at, limit, held, counted);
      LeadsDecodes(s, Next(s, at), sizes[1..], last, limit, held + data, counted + sizes[0]);
      assert held + data + Gathered(s, Next(s, at), sizes[1..], last) == held + Gathered(s, at, sizes, last);
    }
  }

  lemma NextRead(s: seq<Byte>, at: nat)
    requires at <= |s| && Announced(s, at).Some? && Announced(s, at).value > 0
    ensures ReadChunk(s, at).Some? && Next(s, at) == ReadChunk(s, at).value.1
  {
  }

  /** Whenever a body comes back, a chain within the limit led to a size line that announced nothing. */
  lemma {:induction false} BodyHasChain(s: seq<Byte>, at: nat, limit: nat, held: seq<Byte>, counted: nat) returns (sizes: seq<nat>, last: nat)
    requires at <= |s| && counted <= limit && Decode(s, at, limit, held, counted).0.Body?
    ensures Leads(s, at, sizes, last) && last <= |s| && Announced(s, last) == Some(0) && counted + Sum(sizes) <= limit
    decreases |s| - at
  {
    hide Announced, LineEnd;
    var size := Announced(s, at);
    if size == Some(0) {
      sizes, last := [], at;
    } else {
      ProgressMade(s, at);
      var next := Next(s, at);
      sizes, last := BodyHasChain(s, next, limit, held + ReadChunk(s, at).value.0, counted + size.value);
      sizes := [size.value] + sizes;
    }
  }

  /** The stream holds a message within the limit: chunks there to their last byte, and behind them a size line
      that spells zero. */
  ghost predicate Terminated(s: seq<Byte>, at: nat, room: int, sizes: seq<nat>, last: nat)
    requires at <= |s|
  {
    && Leads(s, at, sizes, last) && last <= |s| && Sum(sizes) <= room
    && Announced(s, last) == Some(0) && Token(s, last, LineEnd(s, last, last + 64)) != []
    && Whole(s, at, sizes, last)
  }

  /** The stream only stops announcing: chunks, the last perhaps cut off, and then a size line that spells no
      size at all. */
  ghost predicate BrokenOff(s: seq<Byte>, at: nat, room: int, sizes: seq<nat>, last: nat)
    requires at <= |s|
  {
    Leads(s, at, sizes, last) && last <= |s| && Sum(sizes) <= room && NoSize(s, last, LineEnd(s, last, last + 64))
  }

  lemma EmptyTokenAnnounces(s: seq<Byte>, at: nat)
    requires at <= |s| && Token(s, at, LineEnd(s, at, at + 64)) == []
    ensures Announced(s, at) == Some(0)
  {
  }

  lemma ChainBody(s: seq<Byte>, at: nat, sizes: seq<nat>, last: nat, limit: nat, held: seq<Byte>, counted: nat)
    requires at <= |s| && Leads(s, at, sizes, last) && counted + Sum(sizes) <= limit
    requires last <= |s| && Announced(s, last) == Some(0)
    ensures Decode(s, at, limit, held, counted).0 == Body(held + Gathered(s, at, sizes, last))
  {
    hide Announced, Leads, Gathered, Sum, Decode;
    LeadsDecodes(s, at, sizes, last, limit, held, counted);
    NothingMoreDecodes(s, last, limit, held + Gathered(s, at, sizes, last), counted + Sum(sizes));
  }

  lemma NothingMoreDecodes(s: seq<Byte>, at: nat, limit: nat, held: seq<Byte>, counted: nat)
    requires at <= |s| && Announced(s, at) == Some(0)
    ensures Decode(s, at, limit, held, counted).0 == Body(held)
  {
  }

  /** The first size line, chunk after chunk, that announces nothing more or is no number. */
  function LastLine(s: seq<Byte>, at: nat): (n: nat)
    requires at <= |s|
    ensures n <= |s|
    decreases |s| - at
  {
    if Announced(s, at).None? || Announced(s, at) == Some(0) then at else LastLine(s, Next(s, at))
  }

  lemma {:induction false} ChainEndsAtLastLine(s: seq<Byte>, at: nat, sizes: seq<nat>, last: nat)
    requires at <= |s| && Leads(s, at, sizes, last) && last <= |s| && Announced(s, last) == Some(0)
    ensures last == LastLine(s, at)
    decreases |sizes|
  {
    hide Announced, Next;
    if sizes != [] { ChainEndsAtLastLine(s, Next(s, at), sizes[1..], last); }
  }

  lemma TerminatedGivesBody(s: seq<Byte>, at: nat, limit: nat, held: seq<Byte>, counted: nat, sizes: seq<nat>, last: nat)
    requires at <= |s| && Terminated(s, at, limit - counted, sizes, last)
    ensures Decode(s, at, limit, held, counted).0 == Body(held + Gathered(s, at, sizes, last)) && last == LastLine(s, at)
    ensures Token(s, last, LineEnd(s, last, last + 64)) != []
  {
    ChainBody(s, at, sizes, last, limit, held, counted);
    ChainEndsAtLastLine(s, at, sizes, last);
  }

  lemma BrokenOffGivesBody(s: seq<Byte>, at: nat, limit: nat, held: seq<Byte>, counted: nat, sizes: seq<nat>, last: nat)
    requires at <= |s| && BrokenOff(s, at, limit - counted, sizes, last)
    ensures Decode(s, at, limit, held, counted).0 == Body(held + Gathered(s, at, sizes, last)) && last == LastLine(s, at)
    ensures Token(s, last, LineEnd(s, last, last + 64)) == []
  {
    TokenEmptyExactly(s, last, LineEnd(s, last, last + 64));
    EmptyTokenAnnounces(s, last);
    ChainBody(s, at, sizes, last, limit, held, counted);
    ChainEndsAtLastLine(s, at, sizes, last);
  }

  lemma BodyHasKind(s: seq<Byte>, at: nat, limit: nat, held: seq<Byte>, counted: nat) returns (sizes: seq<nat>, last: nat)
    requires at <= |s| && counted <= limit && Decode(s, at, limit, held, counted).0.Body?
    ensures last == LastLine(s, at)
    ensures var token := Token(s, last, LineEnd(s, last, last + 64));
      if token != [] then Terminated(s, at, limit - counted, sizes, last) else BrokenOff(s, at, limit - counted, sizes, last)
  {
    sizes, last := BodyHasChain(s, at, limit, held, counted);
    ChainEndsAtLastLine(s, at, sizes, last);
    TokenEmptyExactly(s, last, LineEnd(s, last, last + 64));
    if !Whole(s, at, sizes, last) {
      TruncatedLeadsToTheEnd(s, at, sizes, last);
      NothingAtTheEnd(s);
    }
  }

  ghost predicate HoldsMessage(s: seq<Byte>, at: nat, room: int)
    requires at <= |s|
  {
    exists sizes: seq<nat>, last: nat :: Terminated(s, at, room, sizes, last)
  }

  ghost predicate StopsAnnouncing(s: seq<Byte>, at: nat, room: int)
    requires at <= |s|
  {
    exists sizes: seq<nat>, last: nat :: BrokenOff(s, at, room, sizes, last)
  }

  lemma MessageGivesBody(s: seq<Byte>, at: nat, limit: nat, held: seq<Byte>, counted: nat)
    requires at <= |s| && HoldsMessage(s, at, limit - counted)
    ensures var n := LastLine(s, at);
      Decode(s, at, limit, held, counted).0.Body? && Token(s, n, LineEnd(s, n, n + 64)) != []
  {
    hide Terminated, Decode, Token, LineEnd, LastLine, Gathered;
    var room := limit - counted;
    var sizes: seq<nat>, last: nat :| Terminated(s, at, room, sizes, last);
    TerminatedGivesBody(s, at, limit, held, counted, sizes, last);
  }

  lemma StoppingGivesBody(s: seq<Byte>, at: nat, limit: nat, held: seq<Byte>, counted: nat)
    requires at <= |s| && StopsAnnouncing(s, at, limit - counted)
    ensures var n := LastLine(s, at);
      Decode(s, at, limit, held, counted).0.Body? && Token(s, n, LineEnd(s, n, n + 64)) == []
  {
    hide BrokenOff, Decode, Token, LineEnd, LastLine, Gathered;
    var room := limit - counted;
    var sizes: seq<nat>, last: nat :| BrokenOff(s, at, room, sizes, last);
    BrokenOffGivesBody(s, at, limit, held, counted, sizes, last);
  }

  /** On every stream: a body comes back at a size line that spells zero if and only if the stream holds a message
      within the limit, whole and terminated; and a body comes back at a size line without a token if and only if
      that line is blank, only an extension, or past the end of the stream, whatever is left unread behind it. */
  lemma CompleteExactly(s: seq<Byte>, at: nat, limit: nat, held: seq<Byte>, counted: nat)
    requires at <= |s| && counted <= limit
    ensures var n := LastLine(s, at); var token := Token(s, n, LineEnd(s, n, n + 64));
      var isBody := Decode(s, at, limit, held, counted).0.Body?;
      && (isBody && token != [] <==> HoldsMessage(s, at, limit - counted))
      && (isBody && token == [] <==> StopsAnnouncing(s, at, limit - counted))
  {
    hide Decode, Token, LineEnd, Terminated, BrokenOff, LastLine;
    if Decode(s, at, limit, held, counted).0.Body? {
      var sizes, last := BodyHasKind(s, at, limit, held, counted);
    }
    if HoldsMessage(s, at, limit - counted) { MessageGivesBody(s, at, limit, held, counted); }
    if StopsAnnouncing(s, at, limit - counted) { StoppingGivesBody(s, at, limit, held, counted); }
  }

  /** Within the limit so far, the line at `last` announces no number. */
  ghost predicate Garbled(s: seq<Byte>, at: nat, room: int, sizes: seq<nat>, last: nat)
    requires at <= |s|
  {
    Leads(s, at, sizes, last) && last <= |s| && Sum(sizes) <= room && !AllHex(Token(s, last, LineEnd(s, last, last + 64)))
  }

  /** Within the limit so far, the line at `last` announces more than is left of it. */
  ghost predicate Overruns(s: seq<Byte>, at: nat, room: int, sizes: seq<nat>, last: nat)
    requires at <= |s|
  {
    && Leads(s, at, sizes, last) && last <= |s| && Sum(sizes) <= room
    && Announced(s, last).Some? && Sum(sizes) + Announced(s, last).value > room
  }

  ghost predicate HoldsGarbage(s: seq<Byte>, at: nat, room: int)
    requires at <= |s|
  {
    exists sizes: seq<nat>, last: nat :: Garbled(s, at, room, sizes, last)
  }

  ghost predicate HoldsTooMuch(s: seq<Byte>, at: nat, room: int)
    requires at <= |s|
  {
    exists sizes: seq<nat>, last: nat :: Overruns(s, at, room, sizes, last)
  }

  /** Whatever is refused, a chain within the limit led to the line that is to blame. */
  lemma {:induction false} RefusalHasChain(s: seq<Byte>, at: nat, limit: nat, held: seq<Byte>, counted: nat) returns (sizes: seq<nat>, last: nat)
    requires at <= |s| && counted <= limit && !Decode(s, at, limit, held, counted).0.Body?
    ensures Leads(s, at, sizes, last) && last <= |s| && counted + Sum(sizes) <= limit
    ensures Decode(s, at, limit, held, counted).0.Malformed? <==> Announced(s, last).None?
    ensures Decode(s, at, limit, held, counted).0.TooLarge? <==>
      Announced(s, last).Some? && counted + Sum(sizes) + Announced(s, last).value > limit
    decreases |s| - at
  {
    hide Announced, LineEnd;
    var size := Announced(s, at);
    if size.None? || counted + size.value > limit {
      sizes, last := [], at;
    } else {
      ProgressMade(s, at);
      var next := Next(s, at);
      sizes, last := RefusalHasChain(s, next, limit, held + ReadChunk(s, at).value.0, counted + size.value);
      sizes := [size.value] + sizes;
    }
  }

  lemma BlameDecodes(s: seq<Byte>, at: nat, limit: nat, held: seq<Byte>, counted: nat)
    requires at <= |s| && counted <= limit
    ensures Announced(s, at).None? ==> Decode(s, at, limit, held, counted).0 == Malformed
    ensures Announced(s, at).Some? && counted + Announced(s, at).value > limit ==> Decode(s, at, limit, held, counted).0 == TooLarge
  {
  }

  lemma GarbledExactly(s: seq<Byte>, at: nat)
    requires at <= |s|
    ensures !AllHex(Token(s, at, LineEnd(s, at, at + 64))) <==> Announced(s, at).None?
  {
  }

  /** On every stream: it is malformed if and only if, within the limit, a size line holds a byte that is no
      hexadecimal digit where its size should be; and too large if and only if the sizes pass the limit. */
  lemma RefusedExactlyWhen(s: seq<Byte>, at: nat, limit: nat, held: seq<Byte>, counted: nat)
    requires at <= |s| && counted <= limit
    ensures Decode(s, at, limit, held, counted).0.Malformed? <==> HoldsGarbage(s, at, limit - counted)
    ensures Decode(s, at, limit, held, counted).0.TooLarge? <==> HoldsTooMuch(s, at, limit - counted)
  {
    hide *;
    if Decode(s, at, limit, held, counted).0.Malformed? { MalformedHasGarbage(s, at, limit, held, counted); }
    if Decode(s, at, limit, held, counted).0.TooLarge? { TooLargeHasTooMuch(s, at, limit, held, counted); }
    if HoldsGarbage(s, at, limit - counted) { GarbageIsMalformed(s, at, limit, held, counted); }
    if HoldsTooMuch(s, at, limit - counted) { TooMuchIsTooLarge(s, at, limit, held, counted); }
  }

  lemma MalformedHasGarbage(s: seq<Byte>, at: nat, limit: nat, held: seq<Byte>, counted: nat)
    requires at <= |s| && counted <= limit && Decode(s, at, limit, held, counted).0.Malformed?
    ensures HoldsGarbage(s, at, limit - counted)
  {
    hide Decode, Token, LineEnd, Announced, AllHex, Leads, Sum;
    var room := limit - counted;
    var sizes, last := RefusalHasChain(s, at, limit, held, counted);
    GarbledExactly(s, last);
    assert Garbled(s, at, room, sizes, last);
  }

  lemma TooLargeHasTooMuch(s: seq<Byte>, at: nat, limit: nat, held: seq<Byte>, counted: nat)
    requires at <= |s| && counted <= limit && Decode(s, at, limit, held, counted).0.TooLarge?
    ensures HoldsTooMuch(s, at, limit - counted)
  {
    hide Decode, Token, LineEnd, Announced, AllHex, Leads, Sum;
    var room := limit - counted;
    var sizes, last := RefusalHasChain(s, at, limit, held, counted);
    assert Overruns(s, at, room, sizes, last);
  }

  lemma GarbageIsMalformed(s: seq<Byte>, at: nat, limit: nat, held: seq<Byte>, counted: nat)
    requires at <= |s| && counted <= limit && HoldsGarbage(s, at, limit - counted)
    ensures Decode(s, at, limit, held, counted).0 == Malformed
  {
    hide Decode, Token, LineEnd, Announced, Gathered, AllHex;
    var room := limit - counted;
    var sizes: seq<nat>, last: nat :| Garbled(s, at, room, sizes, last);
    GarbledExactly(s, last);
    LeadsDecodes(s, at, sizes, last, limit, held, counted);
    BlameDecodes(s, last, limit, held + Gathered(s, at, sizes, last), counted + Sum(sizes));
  }

  lemma TooMuchIsTooLarge(s: seq<Byte>, at: nat, limit: nat, held: seq<Byte>, counted: nat)
    requires at <= |s| && counted <= limit && HoldsTooMuch(s, at, limit - counted)
    ensures Decode(s, at, limit, held, counted).0 == TooLarge
  {
    hide Decode, Token, LineEnd, Announced, Gathered, AllHex;
    var room := limit - counted;
    var sizes: seq<nat>, last: nat :| Overruns(s, at, room, sizes, last);
    LeadsDecodes(s, at, sizes, last, limit, held, counted);
    BlameDecodes(s, last, limit, held + Gathered(s, at, sizes, last), counted + Sum(sizes));
  }

  /** A stream that ends in the middle of a chunk is not told from a complete one: what has arrived is
      returned as the body. */
  lemma TruncationPassesForTheEnd(s: seq<Byte>, at: nat, limit: nat, held: seq<Byte>, counted: nat)
    requires at <= |s| && Announced(s, at).Some? && 0 < Announced(s, at).value && counted + Announced(s, at).value <= limit
    requires |s| - LineEnd(s, at, at + 64) < Announced(s, at).value
    ensures Decode(s, at, limit, held, counted) == (Body(held + s[LineEnd(s, at, at + 64)..]), |s|)
  {
    var line := LineEnd(s, at, at + 64);
    assert Forward(s, line, Announced(s, at).value) == |s| && LineEnd(s, |s|, |s| + 4) == |s|;
    assert s[line..|s|] == s[line..];
    NothingAtTheEnd(s);
  }

  /** An empty line where a size is due ends the body, whatever comes behind it. */
  lemma BlankLineEndsBody(rest: seq<Byte>, limit: nat)
    ensures Decode(CRLF + rest, 0, limit, [], 0).0 == Body([])
  {
    var s := CRLF + rest;
    assert s[0] == CR && s[1] == LF;
    LineEndIs(s, 0, 1, 64);
    assert Leading(s, 2, 2, Bytes) == 2 && Leading(s, 1, 2, Bytes) == 2 && Leading(s, 0, 2, Bytes) == 2;
    TokenEmptyExactly(s, 0, 2);
    EmptyTokenAnnounces(s, 0);
  }

  // The declared length

  /** The Content-Length lines of a request, as received. */
  datatype Declared = Absent | Present(first: seq<Byte>, more: seq<seq<Byte>>)

  predicate Conflicting(d: Declared) {
    d.Present? && exists i :: 0 <= i < |d.more| && Strip(d.more[i], Text) != Strip(d.first, Text)
  }

  function Digits(raw: seq<Byte>): seq<Byte> {
    var significant := raw[Leading(raw, 0, |raw|, Zeros)..];
    if significant == [] then [ZERO] else significant
  }

  /** The byte count, or none when the declaration is not one. Digits are counted before anything is
      converted: more of them than the limit has answers one over the limit. */
  function DeclaredLength(d: Declared, limit: nat): Option<nat> {
    if d.Absent? then Some(0)
    else if Conflicting(d) then None
    else
      var raw := Strip(d.first, Text);
      if raw == [] || !AllDecimal(raw) then None
      else
        var digits := Digits(raw);
        if |digits| > |Numeral(limit, Ten)| then Some(limit + 1) else Some(Value(digits, Ten))
  }

  function Power(n: nat): nat { if n == 0 then 1 else 10 * Power(n - 1) }

  lemma {:induction false} PowerGrows(m: nat, n: nat)
    requires m <= n
    ensures 0 < Power(m) <= Power(n)
    decreases n
  {
    if m < n { PowerGrows(m, n - 1); } else if n > 0 { PowerGrows(n - 1, n - 1); }
  }

  lemma {:induction false} ValueBounds(s: seq<Byte>, n: nat)
    requires AllDecimal(s) && n <= |s|
    ensures Upto(s, n, Ten) < Power(n)
    ensures n > 0 && s[0] != ZERO ==> Power(n - 1) <= Upto(s, n, Ten)
  {
    if n > 0 {
      ValueBounds(s, n - 1);
      assert DecimalDigit(s[n - 1]);
    }
  }

  lemma {:induction false} LeadingAreZeros(s: seq<Byte>, i: nat)
    requires i <= |s|
    ensures var k := Leading(s, i, |s|, Zeros); (k < |s| ==> s[k] != ZERO) && forall t :: i <= t < k ==> s[t] == ZERO
    decreases |s| - i
  {
    if i < |s| && s[i] == ZERO { LeadingAreZeros(s, i + 1); }
  }

  /** Dropping leading zeros leaves the number what it was. */
  lemma {:induction false} ZerosInFront(s: seq<Byte>, k: nat, n: nat)
    requires k <= n <= |s| && forall t :: 0 <= t < k ==> s[t] == ZERO
    ensures Upto(s[k..], n - k, Ten) == Upto(s, n, Ten)
    decreases n
  {
    if n > k {
      ZerosInFront(s, k, n - 1);
    } else if n > 0 {
      ZerosInFront(s, k - 1, n - 1);
    }
  }

  lemma LeadingZeros(s: seq<Byte>)
    requires AllDecimal(s)
    ensures var t := s[Leading(s, 0, |s|, Zeros)..]; AllDecimal(t) && Value(t, Ten) == Value(s, Ten) && (t == [] || t[0] != ZERO)
  {
    LeadingAreZeros(s, 0);
    var k := Leading(s, 0, |s|, Zeros);
    ZerosInFront(s, k, |s|);
    assert forall i :: 0 <= i < |s[k..]| ==> s[k..][i] == s[k + i];
  }

  /** The exact number an acceptable declaration names. */
  function Named(d: Declared): nat { if d.Absent? then 0 else Value(Strip(d.first, Text), Ten) }

  /** The digit count decides as the exact decimal value would, for digit strings of every length: over the
      limit exactly when the value is, the value itself when not, and zero exactly for zero. */
  lemma DigitCountIsExact(d: Declared, limit: nat)
    requires DeclaredLength(d, limit).Some?
    ensures var n := DeclaredLength(d, limit).value;
      && (n > limit <==> Named(d) > limit)
      && (Named(d) <= limit ==> n == Named(d))
      && (n == 0 <==> Named(d) == 0)
  {
    if d.Present? {
      DigitsSameValue(Strip(d.first, Text));
      if |Digits(Strip(d.first, Text))| > |Numeral(limit, Ten)| { ManyDigitsPass(Digits(Strip(d.first, Text)), limit); }
      hide Strip, Leading, Digits, Numeral, Value, AllDecimal;
    }
  }

  lemma DigitsSameValue(raw: seq<Byte>)
    requires AllDecimal(raw)
    ensures var digits := Digits(raw);
      AllDecimal(digits) && Value(digits, Ten) == Value(raw, Ten) && (|digits| > 1 ==> digits[0] != ZERO)
  {
    LeadingZeros(raw);
    ValueOfOne(ZERO, Ten);
    hide Leading;
  }

  /** A decimal with more digits than the limit, and no zero in front, is over it. */
  lemma ManyDigitsPass(digits: seq<Byte>, limit: nat)
    requires AllDecimal(digits) && |digits| > |Numeral(limit, Ten)| && (|digits| > 1 ==> digits[0] != ZERO)
    ensures Value(digits, Ten) > limit
  {
    DecimalNames(limit);
    ValueBounds(Numeral(limit, Ten), |Numeral(limit, Ten)|);
    ValueBounds(digits, |digits|);
    PowerGrows(|Numeral(limit, Ten)|, |digits| - 1);
  }

  /** What is refused: two different declarations, or one that is not a digit string. */
  lemma RefusedExactly(d: Declared, limit: nat)
    ensures DeclaredLength(d, limit).None? <==>
      d.Present? && (Conflicting(d) || Strip(d.first, Text) == [] || !AllDecimal(Strip(d.first, Text)))
  {
  }

  // The body

  /** The chunked reader when the coding is chunked, otherwise exactly the declared length. `at` is how much
      of the stream was read. */
  method ReadBody(chunked: bool, d: Declared, stream: seq<Byte>, limit: nat) returns (outcome: Outcome, at: nat)
    ensures outcome.Body? ==> |outcome.bytes| <= limit
    ensures chunked ==> (outcome, at) == Decode(stream, 0, limit, [], 0)
    // a declaration that is too large or no number costs not one byte of reading
    ensures !chunked ==> (outcome.Malformed? <==> DeclaredLength(d, limit).None?)
    ensures !chunked ==> (outcome.Malformed? <==>
      d.Present? && (Conflicting(d) || Strip(d.first, Text) == [] || !AllDecimal(Strip(d.first, Text))))
    ensures !chunked && !outcome.Body? ==> at == 0
    ensures !chunked && DeclaredLength(d, limit).Some? ==> (outcome.TooLarge? <==> Named(d) > limit)
    ensures !chunked && outcome.Body? ==> at == Forward(stream, 0, Named(d)) && outcome.bytes == stream[..at]
  {
    if chunked {
      var buffered;
      outcome, at, buffered := ReadChunked(stream, limit);
      return;
    }
    RefusedExactly(d, limit);
    var length := DeclaredLength(d, limit);
    if length.None? { return Malformed, 0; }
    DigitCountIsExact(d, limit);
    if length.value > limit { return TooLarge, 0; }
    at := Forward(stream, 0, length.value);
    outcome := Body(stream[..at]);
  }
}
