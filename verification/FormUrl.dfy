/**
 The application/x-www-form-urlencoded format (section 5 of the WHATWG URL Standard): the
 serializer for values and the parser for whole queries. Text is its UTF-8 bytes, one
 byte a character.
 */
module FormUrl {
  import opened Options

  type Byte = c: char | c as int < 256

  type Bytes = seq<Byte>

  predicate Plain(b: Byte) {
    'a' <= b <= 'z' || 'A' <= b <= 'Z' || '0' <= b <= '9' || b == '*' || b == '-' || b == '.' || b == '_'
  }

  function Hex(d: nat): (b: Byte)
    requires d < 16
    ensures Plain(b)
  {
    if d < 10 then ('0' as int + d) as char else ('A' as int + d - 10) as char
  }

  function HexValue(b: Byte): Option<nat> {
    if '0' <= b <= '9' then Some(b as int - '0' as int)
    else if 'A' <= b <= 'F' then Some(b as int - 'A' as int + 10)
    else if 'a' <= b <= 'f' then Some(b as int - 'a' as int + 10)
    else None
  }

  function EncodeByte(b: Byte): Bytes {
    if Plain(b) then [b]
    else if b == ' ' then ['+']
    else ['%', Hex(b as int / 16), Hex(b as int % 16)]
  }

  function Encode(s: Bytes): Bytes {
    if s == [] then [] else EncodeByte(s[0]) + Encode(s[1..])
  }

  /** A `%` that two hexadecimal digits do not follow stands for itself. */
  function Decode(s: Bytes): Bytes {
    if s == [] then []
    else if s[0] == '+' then [' '] + Decode(s[1..])
    else if s[0] == '%' && |s| >= 3 && HexValue(s[1]).Some? && HexValue(s[2]).Some? then
      var n := HexValue(s[1]).value * 16 + HexValue(s[2]).value;
      assert n < 256;
      [n as char] + Decode(s[3..])
    else [s[0]] + Decode(s[1..])
  }

  lemma DecodePercent(b: Byte, rest: Bytes)
    ensures Decode(['%', Hex(b as int / 16), Hex(b as int % 16)] + rest) == [b] + Decode(rest)
  {
    var s := ['%', Hex(b as int / 16), Hex(b as int % 16)] + rest;
    assert s[3..] == rest && s[1] == Hex(b as int / 16) && s[2] == Hex(b as int % 16);
  }

  lemma DecodeStep(b: Byte, rest: Bytes)
    ensures Decode(EncodeByte(b) + rest) == [b] + Decode(rest)
  {
    if Plain(b) || b == ' ' {
      assert (EncodeByte(b) + rest)[1..] == rest;
    } else {
      DecodePercent(b, rest);
    }
  }

  lemma {:induction false} DecodeOfEncode(s: Bytes)
    ensures Decode(Encode(s)) == s
  {
    if s != [] {
      DecodeStep(s[0], Encode(s[1..]));
      DecodeOfEncode(s[1..]);
    }
  }

  /** The hexadecimal digits, in either case. */
  lemma HexValueIs(b: Byte, d: nat)
    requires d < 16
    ensures HexValue(b) == Some(d)
            <==> b == "0123456789ABCDEF"[d] || b == "0123456789abcdef"[d]
  {
  }

  /**
   What the parser makes of any text: a plus is a blank, two hexadecimal digits after `%` are a byte,
   all else is itself.
   */
  lemma DecodeIs(b: Byte, rest: Bytes)
    ensures b == '+' ==> Decode([b] + rest) == [' '] + Decode(rest)
    ensures b != '+' && b != '%' ==> Decode([b] + rest) == [b] + Decode(rest)
    ensures b == '%' && !(|rest| >= 2 && HexValue(rest[0]).Some? && HexValue(rest[1]).Some?) ==>
              Decode([b] + rest) == ['%'] + Decode(rest)
    ensures b == '%' && |rest| >= 2 && HexValue(rest[0]).Some? && HexValue(rest[1]).Some? ==>
              exists byte: Byte ::
                && byte as int == 16 * HexValue(rest[0]).value + HexValue(rest[1]).value
                && Decode([b] + rest) == [byte] + Decode(rest[2..])
  {
    var s := [b] + rest;
    assert s[1..] == rest;
    if b == '%' && |rest| >= 2 && HexValue(rest[0]).Some? && HexValue(rest[1]).Some? {
      assert s[1] == rest[0] && s[2] == rest[1] && s[3..] == rest[2..];
      var n := HexValue(rest[0]).value * 16 + HexValue(rest[1]).value;
      var byte: Byte := n as char;
      assert byte as int == n;
      assert Decode(s) == [byte] + Decode(rest[2..]);
    }
  }

  predicate Free(s: Bytes, b: Byte) {
    forall i :: 0 <= i < |s| ==> s[i] != b
  }

  lemma {:induction false} EncodeIsFree(s: Bytes)
    ensures Free(Encode(s), '&') && Free(Encode(s), '=')
    ensures forall i :: 0 <= i < |Encode(s)| ==> Plain(Encode(s)[i]) || Encode(s)[i] == '+' || Encode(s)[i] == '%'
  {
    if s != [] {
      EncodeIsFree(s[1..]);
    }
  }

  lemma HexIs(d: nat)
    requires d < 16
    ensures Hex(d) == "0123456789ABCDEF"[d]
  {
  }

  lemma Nibbles(n: nat, hi: nat, lo: nat)
    requires n == 16 * hi + lo && lo < 16 && hi < 16
    ensures n / 16 == hi && n % 16 == lo
  {
  }

  /** What the serializer writes for one byte: hexadecimal digits are in upper case. */
  lemma EncodeByteIs(b: Byte, hi: nat, lo: nat)
    requires b as int == 16 * hi + lo && lo < 16 && hi < 16
    ensures EncodeByte(b)
         == if Plain(b) then [b] else if b == ' ' then ['+'] else ['%', "0123456789ABCDEF"[hi], "0123456789ABCDEF"[lo]]
  {
    Nibbles(b as int, hi, lo);
    HexIs(hi);
    HexIs(lo);
  }

  /** Digits, the letters of the keys and the like are their own encoding. */
  lemma {:induction false} EncodePlain(s: Bytes)
    requires forall i :: 0 <= i < |s| ==> Plain(s[i])
    ensures Encode(s) == s
  {
    if s != [] {
      EncodePlain(s[1..]);
    }
  }

  /** The position of the first `b`, or the length. */
  function Find(s: Bytes, b: Byte): (i: nat)
    ensures i <= |s| && (i < |s| ==> s[i] == b)
    ensures forall j :: 0 <= j < i ==> s[j] != b
  {
    if s == [] || s[0] == b then 0 else 1 + Find(s[1..], b)
  }

  lemma {:induction false} FindAfterFree(a: Bytes, b: Byte, rest: Bytes)
    requires Free(a, b)
    ensures Find(a + [b] + rest, b) == |a| && (Find(a, b) == |a|)
  {
    var s := a + [b] + rest;
    assert s[|a|] == b && forall j :: 0 <= j < |a| ==> s[j] == a[j];
  }

  datatype Pair = Pair(key: Bytes, value: Bytes)

  /** One `key=value` piece; without `=` the value is empty. */
  function ParsePiece(piece: Bytes): Pair {
    var i := Find(piece, '=');
    if i == |piece| then Pair(Decode(piece), []) else Pair(Decode(piece[..i]), Decode(piece[i + 1..]))
  }

  function Parse(query: Bytes): seq<Pair>
    decreases |query|
  {
    var i := Find(query, '&');
    var first := if i == 0 then [] else [ParsePiece(query[..i])];
    if i == |query| then first else first + Parse(query[i + 1..])
  }

  /** Every text is cut at each `&`, and empty pieces give nothing. */
  lemma ParseIs(piece: Bytes, rest: Bytes)
    requires Free(piece, '&')
    ensures Parse(piece + ['&'] + rest) == (if piece == [] then [] else [ParsePiece(piece)]) + Parse(rest)
    ensures Parse(piece) == if piece == [] then [] else [ParsePiece(piece)]
  {
    var query := piece + ['&'] + rest;
    FindAfterFree(piece, '&', rest);
    assert query[..|piece|] == piece && query[|piece| + 1..] == rest && piece[..|piece|] == piece;
  }

  /** A piece is cut at its first `=`; without one its value is empty. */
  lemma PieceIs(key: Bytes, value: Bytes)
    requires Free(key, '=')
    ensures ParsePiece(key + ['='] + value) == Pair(Decode(key), Decode(value))
    ensures ParsePiece(key) == Pair(Decode(key), [])
  {
    var piece := key + ['='] + value;
    FindAfterFree(key, '=', value);
    assert piece[..|key|] == key && piece[|key| + 1..] == value;
  }

  /** The parameters of a query; of several with one key the last counts. */
  function Collect(pairs: seq<Pair>): map<Bytes, Bytes> {
    if pairs == [] then map[] else Collect(pairs[..|pairs| - 1])[pairs[|pairs| - 1].key := pairs[|pairs| - 1].value]
  }

  function QueryPairs(query: Bytes): map<Bytes, Bytes> {
    Collect(Parse(query))
  }

  function Piece(p: Pair): Bytes {
    p.key + ['='] + Encode(p.value)
  }

  /** What the URL builder writes: pieces joined by `&`, values encoded, keys as they are. */
  function Query(pairs: seq<Pair>): Bytes {
    if pairs == [] then []
    else if |pairs| == 1 then Piece(pairs[0])
    else Piece(pairs[0]) + ['&'] + Query(pairs[1..])
  }

  predicate PlainKey(p: Pair) {
    p.key != [] && forall i :: 0 <= i < |p.key| ==> Plain(p.key[i])
  }

  lemma PieceIsFree(p: Pair)
    requires PlainKey(p)
    ensures Free(Piece(p), '&') && Free(p.key, '=') && Piece(p) != []
  {
    EncodeIsFree(p.value);
  }

  lemma DecodePlain(s: Bytes)
    requires forall i :: 0 <= i < |s| ==> Plain(s[i])
    ensures Decode(s) == s
  {
    EncodePlain(s);
    DecodeOfEncode(s);
  }

  lemma PieceRoundTrip(p: Pair)
    requires PlainKey(p)
    ensures ParsePiece(Piece(p)) == p
  {
    PieceIsFree(p);
    PieceIs(p.key, Encode(p.value));
    DecodePlain(p.key);
    DecodeOfEncode(p.value);
  }

  lemma FirstAndRest(pairs: seq<Pair>)
    requires pairs != []
    ensures pairs == [pairs[0]] + pairs[1..]
  {
  }

  /** Parsing a built query gives back exactly the pairs, in order, whatever bytes the values have. */
  lemma {:induction false} ParseOfQuery(pairs: seq<Pair>)
    requires pairs != [] && forall i :: 0 <= i < |pairs| ==> PlainKey(pairs[i])
    ensures Parse(Query(pairs)) == pairs
  {
    var piece := Piece(pairs[0]);
    PieceIsFree(pairs[0]);
    PieceRoundTrip(pairs[0]);
    if |pairs| == 1 {
      ParseIs(piece, []);
      assert pairs == [pairs[0]];
    } else {
      ParseOfQuery(pairs[1..]);
      ParseIs(piece, Query(pairs[1..]));
      FirstAndRest(pairs);
    }
  }
}
