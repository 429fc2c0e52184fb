/** Base64 with the URL-safe alphabet and no padding (sections 5 and 3.2 of RFC 4648), decoded
    the way Go decodes it: carriage returns and line feeds are skipped and the unused low bits of
    the last character are ignored. */
module Base64Url {
  import opened Text

  type Sextet = n: int | 0 <= n < 64

  function EncodeSextet(n: Sextet): (c: Byte) {
    if n < 26 then ('A' as int + n) as char
    else if n < 52 then ('a' as int + (n - 26)) as char
    else if n < 62 then ('0' as int + (n - 52)) as char
    else if n == 62 then '-' else '_'
  }

  function DecodeSextet(c: Byte): (n: Option<Sextet>) {
    if 'A' <= c <= 'Z' then Some(c as int - 'A' as int)
    else if 'a' <= c <= 'z' then Some(c as int - 'a' as int + 26)
    else if '0' <= c <= '9' then Some(c as int - '0' as int + 52)
    else if c == '-' then Some(62)
    else if c == '_' then Some(63)
    else None
  }

  predicate InAlphabet(text: Bytes) {
    forall i :: 0 <= i < |text| ==> DecodeSextet(text[i]).Some?
  }

  function ToSextets(bytes: Bytes): (sextets: seq<Sextet>) {
    if |bytes| == 0 then []
    else
      var a := bytes[0] as int;
      if |bytes| == 1 then [a / 4, a % 4 * 16]
      else
        var b := bytes[1] as int;
        if |bytes| == 2 then [a / 4, a % 4 * 16 + b / 16, b % 16 * 4]
        else
          var c := bytes[2] as int;
          [a / 4, a % 4 * 16 + b / 16, b % 16 * 4 + c / 64, c % 64] + ToSextets(bytes[3..])
  }

  function Upper(a: Sextet, b: Sextet): Byte {
    (a * 4 + b / 16) as char
  }

  function Middle(b: Sextet, c: Sextet): Byte {
    (b % 16 * 16 + c / 4) as char
  }

  function Lower(c: Sextet, d: Sextet): Byte {
    (c % 4 * 64 + d) as char
  }

  function FromSextets(s: seq<Sextet>): (bytes: Option<Bytes>) {
    match |s|
    case 0 => Some([])
    case 1 => None
    case 2 => Some([Upper(s[0], s[1])])
    case 3 => Some([Upper(s[0], s[1]), Middle(s[1], s[2])])
    case _ =>
      match FromSextets(s[4..])
      case None => None
      case Some(rest) => Some([Upper(s[0], s[1]), Middle(s[1], s[2]), Lower(s[2], s[3])] + rest)
  }

  function EncodeAll(s: seq<Sextet>): (text: Bytes)
    ensures |text| == |s|
  {
    if s == [] then [] else [EncodeSextet(s[0])] + EncodeAll(s[1..])
  }

  function DecodeAll(text: Bytes): (s: Option<seq<Sextet>>) {
    if text == [] then Some([])
    else
      match (DecodeSextet(text[0]), DecodeAll(text[1..]))
      case (Some(n), Some(rest)) => Some([n] + rest)
      case _ => None
  }

  function WithoutNewlines(text: Bytes): (kept: Bytes) {
    if text == [] then []
    else if text[0] == '\n' || text[0] == '\r' then WithoutNewlines(text[1..])
    else [text[0]] + WithoutNewlines(text[1..])
  }

  /** RawURLEncoding.EncodeToString. */
  function Encode(bytes: Bytes): (text: Bytes) {
    EncodeAll(ToSextets(bytes))
  }

  /** RawURLEncoding.DecodeString. */
  function Decode(text: Bytes): (bytes: Option<Bytes>) {
    match DecodeAll(WithoutNewlines(text))
    case None => None
    case Some(s) => FromSextets(s)
  }

  /** Encoded text uses the alphabet only; in particular it holds no '.'. */
  lemma {:induction false} EncodeAllInAlphabet(s: seq<Sextet>)
    ensures InAlphabet(EncodeAll(s))
    ensures '.' !in EncodeAll(s)
    ensures DecodeAll(EncodeAll(s)) == Some(s)
  {
    if s != [] {
      EncodeAllInAlphabet(s[1..]);
      assert s == [s[0]] + s[1..];
      assert EncodeAll(s)[1..] == EncodeAll(s[1..]);
    }
  }

  lemma {:induction false} AlphabetHasNoNewlines(text: Bytes)
    requires InAlphabet(text)
    ensures WithoutNewlines(text) == text
  {
    if text != [] {
      assert DecodeSextet(text[0]).Some?;
      AlphabetHasNoNewlines(text[1..]);
    }
  }

  /** Three bytes cut into four sextets and put together again. */
  lemma QuantumRoundTrip(a: Byte, b: Byte, c: Byte)
    ensures Upper(a as int / 4, a as int % 4 * 16 + b as int / 16) == a
    ensures Middle(a as int % 4 * 16 + b as int / 16, b as int % 16 * 4 + c as int / 64) == b
    ensures Lower(b as int % 16 * 4 + c as int / 64, c as int % 64) == c
  {
  }

  lemma {:induction false} SextetsRoundTrip(bytes: Bytes)
    ensures FromSextets(ToSextets(bytes)) == Some(bytes)
  {
    var zero: Byte := 0 as char;
    if |bytes| == 0 {
    } else if |bytes| == 1 {
      QuantumRoundTrip(bytes[0], zero, zero);
      assert zero as int / 16 == 0 && bytes == [bytes[0]];
    } else if |bytes| == 2 {
      QuantumRoundTrip(bytes[0], bytes[1], zero);
      assert zero as int / 64 == 0 && bytes == [bytes[0], bytes[1]];
    } else {
      QuantumRoundTrip(bytes[0], bytes[1], bytes[2]);
      SextetsRoundTrip(bytes[3..]);
      assert ToSextets(bytes)[4..] == ToSextets(bytes[3..]);
      assert bytes == [bytes[0], bytes[1], bytes[2]] + bytes[3..];
    }
  }

  /** Every byte string survives encoding and decoding. */
  lemma RoundTrip(bytes: Bytes)
    ensures Decode(Encode(bytes)) == Some(bytes)
    ensures InAlphabet(Encode(bytes)) && '.' !in Encode(bytes)
    ensures bytes != [] ==> Encode(bytes) != []
  {
    EncodeAllInAlphabet(ToSextets(bytes));
    AlphabetHasNoNewlines(Encode(bytes));
    SextetsRoundTrip(bytes);
  }

  lemma EncodeInjective(x: Bytes, y: Bytes)
    requires Encode(x) == Encode(y)
    ensures x == y
  {
    RoundTrip(x);
    RoundTrip(y);
  }

  lemma SampleEncodings()
    ensures Encode(['m']) == ['b', 'Q']
    ensures Encode(['A']) == ['Q', 'Q']
  {
    assert ToSextets(['m']) == [27, 16] && [27, 16][1..] == [16];
    assert ToSextets(['A']) == [16, 16] && [16, 16][1..] == [16];
    assert EncodeSextet(27) == 'b' && EncodeSextet(16) == 'Q';
  }

  /** The converse fails: two different texts decode to the same byte, because the decoder ignores
      the unused bits of the last character. */
  lemma DecodingIsNotInjective()
    ensures Decode(['Q', 'Q']) == Decode(['Q', 'R']) == Some(['A'])
  {
    assert DecodeSextet('Q') == Some(16) && DecodeSextet('R') == Some(17);
    assert EncodeAll([16, 16]) == ['Q', 'Q'] by {
      assert [16, 16][1..] == [16];
    }
    assert EncodeAll([16, 17]) == ['Q', 'R'] by {
      assert [16, 17][1..] == [17];
    }
    EncodeAllInAlphabet([16, 16]);
    EncodeAllInAlphabet([16, 17]);
    AlphabetHasNoNewlines(['Q', 'Q']);
    AlphabetHasNoNewlines(['Q', 'R']);
  }
}
