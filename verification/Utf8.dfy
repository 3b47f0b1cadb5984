/**
  Preview truncation. UTF-8 as in section 3 of RFC 3629, the migration's encode, cut, decode
  with errors ignored, and the server's own cut at a character boundary, shown to agree.
 */
module Utf8 {
  import opened Options

  /** A code point of a Python string; a Unicode scalar value is one that is no surrogate. */
  type CodePoint = x: int | 0 <= x <= 0x10FFFF
  type Scalar = x: int | 0 <= x <= 0x10FFFF && !(0xD800 <= x <= 0xDFFF)
  type Byte = x: int | 0 <= x < 256

  // ---------------------------------------------------------------- encoding

  function EncodeOne(c: Scalar): (r: seq<Byte>)
    ensures 1 <= |r| <= 4
  {
    if c < 0x80 then [c]
    else if c < 0x800 then [0xC0 + c / 64, 0x80 + c % 64]
    else if c < 0x10000 then [0xE0 + c / 4096, 0x80 + c / 64 % 64, 0x80 + c % 64]
    else [0xF0 + c / 262144, 0x80 + c / 4096 % 64, 0x80 + c / 64 % 64, 0x80 + c % 64]
  }

  function Encode(t: seq<Scalar>): seq<Byte> {
    if t == [] then [] else EncodeOne(t[0]) + Encode(t[1..])
  }

  // ---------------------------------------------------------------- decoding

  predicate Continues(b: Byte) {
    0x80 <= b < 0xC0
  }

  /** The well-formed character at the front of the bytes, with its length; none if malformed. */
  function DecodeOne(b: seq<Byte>): (r: Option<(Scalar, nat)>)
    ensures r.Some? ==> 1 <= r.value.1 <= |b|
  {
    if b == [] then None
    else if b[0] < 0x80 then Some((b[0], 1))
    else if 0xC0 <= b[0] < 0xE0 && |b| >= 2 && Continues(b[1]) then
      var c := (b[0] as int - 0xC0) * 64 + (b[1] as int - 0x80);
      if c < 0x80 then None else Some((c, 2))
    else if 0xE0 <= b[0] < 0xF0 && |b| >= 3 && Continues(b[1]) && Continues(b[2]) then
      var c := (b[0] as int - 0xE0) * 4096 + (b[1] as int - 0x80) * 64 + (b[2] as int - 0x80);
      if c < 0x800 || 0xD800 <= c <= 0xDFFF then None else Some((c, 3))
    else if 0xF0 <= b[0] < 0xF8 && |b| >= 4 && Continues(b[1]) && Continues(b[2]) && Continues(b[3]) then
      var c := (b[0] as int - 0xF0) * 262144 + (b[1] as int - 0x80) * 4096 + (b[2] as int - 0x80) * 64 + (b[3] as int - 0x80);
      if c < 0x10000 || c > 0x10FFFF then None else Some((c, 4))
    else None
  }

  /** Decoding with errors ignored: a byte that starts no well-formed character is dropped. */
  function DecodeIgnore(b: seq<Byte>): seq<Scalar>
    decreases |b|
  {
    if b == [] then []
    else match DecodeOne(b)
      case Some(p) => [p.0] + DecodeIgnore(b[p.1..])
      case None => DecodeIgnore(b[1..])
  }

  // ---------------------------------------------------------------- one character

  lemma DecodesBack2(c: Scalar)
    requires 0x80 <= c < 0x800
    ensures var b := EncodeOne(c); |b| == 2 && 0xC0 <= b[0] < 0xE0 && Continues(b[1])
                                   && (b[0] as int - 0xC0) * 64 + (b[1] as int - 0x80) == c
  {
  }

  lemma DecodesBack3(c: Scalar)
    requires 0x800 <= c < 0x10000
    ensures var b := EncodeOne(c); |b| == 3 && 0xE0 <= b[0] < 0xF0 && Continues(b[1]) && Continues(b[2])
                                   && (b[0] as int - 0xE0) * 4096 + (b[1] as int - 0x80) * 64 + (b[2] as int - 0x80) == c
  {
    assert c == c / 64 * 64 + c % 64;
    assert c / 64 == c / 64 / 64 * 64 + c / 64 % 64;
    assert c / 64 / 64 == c / 4096;
  }

  lemma DecodesBack4(c: Scalar)
    requires 0x10000 <= c
    ensures var b := EncodeOne(c); |b| == 4 && 0xF0 <= b[0] < 0xF8
                                   && Continues(b[1]) && Continues(b[2]) && Continues(b[3])
                                   && (b[0] as int - 0xF0) * 262144 + (b[1] as int - 0x80) * 4096 + (b[2] as int - 0x80) * 64 + (b[3] as int - 0x80) == c
  {
    assert c == c / 64 * 64 + c % 64;
    assert c / 64 == c / 64 / 64 * 64 + c / 64 % 64;
    assert c / 64 / 64 == c / 4096;
    assert c / 4096 == c / 4096 / 64 * 64 + c / 4096 % 64;
    assert c / 4096 / 64 == c / 262144;
  }

  /** Only the first byte of a character is not a continuation byte. */
  lemma Shape(c: Scalar)
    ensures var b := EncodeOne(c);
            && !Continues(b[0])
            && (forall i :: 1 <= i < |b| ==> Continues(b[i]))
            && (|b| == 2 ==> 0xC0 <= b[0] < 0xE0) && (|b| == 3 ==> 0xE0 <= b[0] < 0xF0)
            && (|b| == 4 ==> 0xF0 <= b[0] < 0xF8)
  {
    if 0x80 <= c < 0x800 { DecodesBack2(c); }
    if 0x800 <= c < 0x10000 { DecodesBack3(c); }
    if 0x10000 <= c { DecodesBack4(c); }
  }

  lemma DecodesBack(c: Scalar, rest: seq<Byte>)
    ensures DecodeOne(EncodeOne(c) + rest) == Some((c, |EncodeOne(c)|))
  {
    var b := EncodeOne(c);
    assert forall i :: 0 <= i < |b| ==> (b + rest)[i] == b[i];
    if 0x80 <= c < 0x800 { DecodesBack2(c); }
    if 0x800 <= c < 0x10000 { DecodesBack3(c); }
    if 0x10000 <= c { DecodesBack4(c); }
  }

  lemma {:induction false} StrayContinuations(b: seq<Byte>)
    requires forall i :: 0 <= i < |b| ==> Continues(b[i])
    ensures DecodeIgnore(b) == []
  {
    if b != [] {
      assert DecodeOne(b) == None;
      StrayContinuations(b[1..]);
    }
  }

  /** A character cut short decodes to nothing. */
  lemma CutCharacterVanishes(c: Scalar, n: nat)
    requires n < |EncodeOne(c)|
    ensures DecodeIgnore(EncodeOne(c)[..n]) == []
  {
    Shape(c);
    if n > 0 {
      var b := EncodeOne(c)[..n];
      assert DecodeOne(b) == None;
      StrayContinuations(b[1..]);
    }
  }

  // ---------------------------------------------------------------- whole texts

  /** How many leading characters of a text fit in a number of bytes. */
  function Fit(t: seq<Scalar>, n: int): (k: nat)
    ensures k <= |t|
  {
    if t == [] || |EncodeOne(t[0])| > n then 0 else 1 + Fit(t[1..], n - |EncodeOne(t[0])|)
  }

  /** `Fit` is the longest prefix: exactly the prefixes up to it are short enough. */
  lemma {:induction false} FitIsLongest(t: seq<Scalar>, n: nat, j: nat)
    requires j <= |t|
    ensures |Encode(t[..j])| <= n <==> j <= Fit(t, n)
  {
    if j > 0 {
      var len := |EncodeOne(t[0])|;
      assert t[..j] == [t[0]] + t[1..][..j - 1];
      assert t[..j][1..] == t[1..][..j - 1];
      if len <= n {
        FitIsLongest(t[1..], n - len, j - 1);
      }
    }
  }

  function Cut(b: seq<Byte>, n: nat): seq<Byte> {
    if |b| <= n then b else b[..n]
  }

  lemma CutFront(a: seq<Byte>, b: seq<Byte>, n: nat)
    ensures |a| <= n ==> Cut(a + b, n) == a + Cut(b, n - |a|)
    ensures |a| > n ==> Cut(a + b, n) == a[..n]
  {
  }

  /** Decoding the first `n` bytes, errors ignored, gives the longest prefix that fits in them. */
  lemma {:induction false} CutDecodesToFit(t: seq<Scalar>, n: nat)
    ensures DecodeIgnore(Cut(Encode(t), n)) == t[..Fit(t, n)]
  {
    if t != [] {
      var a, b := EncodeOne(t[0]), Encode(t[1..]);
      CutFront(a, b, n);
      if |a| <= n {
        var rest := Cut(b, n - |a|);
        DecodesBack(t[0], rest);
        assert (a + rest)[|a|..] == rest;
        CutDecodesToFit(t[1..], n - |a|);
        assert t[..Fit(t, n)] == [t[0]] + t[1..][..Fit(t[1..], n - |a|)];
      } else {
        CutCharacterVanishes(t[0], n);
      }
    }
  }

  // ---------------------------------------------------------------- the two previews

  const LIMIT: nat := 512

  /** str.encode("utf-8"): a lone surrogate is an error. */
  function EncodeText(t: seq<CodePoint>): (r: Option<seq<Byte>>)
    ensures r.Some? <==> forall i :: 0 <= i < |t| ==> !(0xD800 <= t[i] <= 0xDFFF)
    ensures r.Some? ==> r.value == Encode(t)
  {
    if t == [] then Some([])
    else if 0xD800 <= t[0] <= 0xDFFF then None
    else match EncodeText(t[1..])
      case None => None
      case Some(rest) => Some(EncodeOne(t[0]) + rest)
  }

  /** summary(): encode, cut at 512 bytes, decode with errors ignored; none if encoding raises. */
  function Summary(t: seq<CodePoint>): Option<seq<Scalar>> {
    match EncodeText(t)
    case None => None
    case Some(bytes) => Some(DecodeIgnore(Cut(bytes, LIMIT)))
  }

  /**
    For every text, the preview is its longest prefix whose UTF-8 encoding fits in 512 bytes;
    it is refused exactly when the text holds a surrogate.
   */
  lemma SummaryIsLongestPrefix(t: seq<CodePoint>, j: nat)
    requires j <= |t|
    ensures Summary(t) == None <==> exists i :: 0 <= i < |t| && 0xD800 <= t[i] <= 0xDFFF
    ensures Summary(t).Some? ==>
              && Summary(t).value <= t
              && (|Encode(t[..j])| <= 512 <==> j <= |Summary(t).value|)
  {
    if EncodeText(t).Some? {
      CutDecodesToFit(t, LIMIT);
      FitIsLongest(t, LIMIT, j);
    }
  }

  lemma {:induction false} EncodeJoins(a: seq<Scalar>, b: seq<Scalar>)
    ensures Encode(a + b) == Encode(a) + Encode(b)
  {
    if a == [] {
      assert a + b == b;
    } else {
      assert (a + b)[1..] == a[1..] + b;
      EncodeJoins(a[1..], b);
    }
  }

  /** Where the bytes of a text stop being whole characters of the prefix that fits. */
  lemma BoundaryAtFit(t: seq<Scalar>, n: nat)
    requires n < |Encode(t)|
    ensures var cut := |Encode(t[..Fit(t, n)])|;
            && cut <= n && Encode(t)[..cut] == Encode(t[..Fit(t, n)])
            && !Continues(Encode(t)[cut]) && forall i :: cut < i <= n ==> Continues(Encode(t)[i])
  {
    var k := Fit(t, n);
    FitIsLongest(t, n, k);
    FitIsLongest(t, n, |t|);
    assert t[..|t|] == t;
    FitIsLongest(t, n, k + 1);
    var cut, one, rest := |Encode(t[..k])|, EncodeOne(t[k]), Encode(t[k + 1..]);
    SplitAt(t, k);
    Shape(t[k]);
    assert forall i :: 0 <= i < |one| ==> Encode(t)[cut + i] == one[i];
  }

  /** The bytes of a text, split before and after its k-th character. */
  lemma SplitAt(t: seq<Scalar>, k: nat)
    requires k < |t|
    ensures Encode(t) == Encode(t[..k]) + (EncodeOne(t[k]) + Encode(t[k + 1..]))
    ensures |Encode(t[..k + 1])| == |Encode(t[..k])| + |EncodeOne(t[k])|
  {
    assert t == t[..k] + t[k..];
    EncodeJoins(t[..k], t[k..]);
    assert t[..k + 1] == t[..k] + [t[k]];
    EncodeJoins(t[..k], [t[k]]);
    assert Encode([t[k]]) == EncodeOne(t[k]) + [];
  }

  /** The last place, at or below the n-th byte, where a character may begin; else the start. */
  ghost predicate LastBoundary(text: seq<Byte>, n: nat, end: nat) {
    && end <= n < |text|
    && (end == 0 || !Continues(text[end]))
    && forall i :: end < i <= n ==> Continues(text[i])
  }

  /** In the bytes of a text that place is where the longest fitting prefix ends. */
  lemma BoundaryIsFit(t: seq<Scalar>, n: nat, end: nat)
    requires LastBoundary(Encode(t), n, end)
    ensures Encode(t)[..end] == Encode(t[..Fit(t, n)])
  {
    BoundaryAtFit(t, n);
    var cut := |Encode(t[..Fit(t, n)])|;
    assert end == cut;
  }

  lemma ShortTextFits(t: seq<Scalar>, n: nat)
    requires |Encode(t)| <= n
    ensures t[..Fit(t, n)] == t
  {
    assert t[..|t|] == t;
    FitIsLongest(t, n, |t|);
  }

  /** The server's cut and the migration's, read back, agree. */
  lemma PreviewsAgree(t: seq<Scalar>)
    ensures DecodeIgnore(Encode(t[..Fit(t, LIMIT)])) == DecodeIgnore(Cut(Encode(t), LIMIT))
  {
    var prefix := t[..Fit(t, LIMIT)];
    CutDecodesToFit(t, LIMIT);
    FitIsLongest(t, LIMIT, |prefix|);
    ShortTextFits(prefix, LIMIT);
    CutDecodesToFit(prefix, LIMIT);
  }

  /**
    conversationPreview: step back from byte 512 while it is a continuation byte. Of any bytes,
    a short string is kept whole and a long one up to its last character boundary within 512; on
    the bytes of a text this keeps the encoding of the very prefix the migration keeps.
   */
  method PreviewBytes(text: seq<Byte>) returns (r: seq<Byte>)
    ensures r <= text
    ensures if |text| <= 512 then r == text else LastBoundary(text, 512, |r|)
    ensures forall t: seq<Scalar> :: text == Encode(t) ==> r == Encode(t[..Fit(t, LIMIT)])
  {
    var end := if |text| < LIMIT then |text| else LIMIT;
    while end < |text| && end > 0 && Continues(text[end])
      invariant 0 <= end <= LIMIT && end <= |text|
      invariant |text| <= LIMIT ==> end == |text|
      invariant |text| > LIMIT ==> forall i :: end < i <= LIMIT ==> Continues(text[i])
      decreases end
    {
      end := end - 1;
    }
    r := text[..end];
    forall t: seq<Scalar> | text == Encode(t)
      ensures r == Encode(t[..Fit(t, LIMIT)])
    {
      if |text| <= LIMIT {
        ShortTextFits(t, LIMIT);
      } else {
        BoundaryIsFit(t, LIMIT, end);
      }
    }
  }
}
