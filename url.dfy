/**
 * URLs as the action routes write them: hrefs built with template literals (no escaping),
 * and URLs built with `URL.searchParams.append` / `URLSearchParams`, which escape every
 * key and value with the application/x-www-form-urlencoded serializer of the WHATWG URL
 * standard (section 5.2). `encodeURIComponent` is the same escaping with a slightly larger
 * set of characters left alone (ECMA-262, section 19.2.6.5).
 *
 * A reader for query strings and a percent-decoder are given as the reference against
 * which the writers are proved: every parameter a writer puts in is read back, in order.
 */
module Url {
  import opened Base
  import opened Text
  import Utf8

  type Param = (string, string)

  // ---------------------------------------------------------------- writers

  function Pair(p: Param): string {
    p.0 + "=" + p.1
  }

  function Pairs(ps: seq<Param>): (r: seq<string>)
    ensures |r| == |ps|
    ensures forall i :: 0 <= i < |ps| ==> r[i] == Pair(ps[i])
  {
    seq(|ps|, i requires 0 <= i < |ps| => Pair(ps[i]))
  }

  /** `${path}?k1=v1&k2=v2...` written as a template literal: nothing is escaped. */
  function Href(path: string, ps: seq<Param>): string {
    path + "?" + Join(Pairs(ps), "&")
  }

  datatype Charset = FormUrlencoded | UriComponent

  /** The characters each serializer leaves as they are. */
  predicate Keeps(cs: Charset, c: char) {
    || ('A' <= c <= 'Z') || ('a' <= c <= 'z') || ('0' <= c <= '9')
    || c == '*' || c == '-' || c == '.' || c == '_'
    || (cs == UriComponent && (c == '!' || c == '~' || c == '\'' || c == '(' || c == ')'))
  }

  function HexDigit(n: int): char
    requires 0 <= n < 16
  {
    if n < 10 then ('0' as int + n) as char else ('A' as int + n - 10) as char
  }

  /** `%XX` for each byte, upper-case hexadecimal. */
  function Escape(bs: seq<Utf8.Byte>): string
    decreases |bs|
  {
    if bs == [] then "" else ['%', HexDigit(bs[0] / 16), HexDigit(bs[0] % 16)] + Escape(bs[1..])
  }

  function EncodeChar(cs: Charset, c: char): string {
    if Keeps(cs, c) then [c]
    else if cs == FormUrlencoded && c == ' ' then "+"
    else Escape(Utf8.EncodeChar(c))
  }

  function PercentEncode(cs: Charset, s: string): string
    decreases |s|
  {
    if s == [] then "" else EncodeChar(cs, s[0]) + PercentEncode(cs, s[1..])
  }

  /** `encodeURIComponent(s)`. */
  function EncodeUriComponent(s: string): string {
    PercentEncode(UriComponent, s)
  }

  function EncodePairs(ps: seq<Param>): (r: seq<Param>)
    ensures |r| == |ps|
    ensures forall i :: 0 <= i < |ps| ==>
      r[i] == (PercentEncode(FormUrlencoded, ps[i].0), PercentEncode(FormUrlencoded, ps[i].1))
  {
    seq(|ps|, i requires 0 <= i < |ps| =>
      (PercentEncode(FormUrlencoded, ps[i].0), PercentEncode(FormUrlencoded, ps[i].1)))
  }

  /**
   * `new URL(base)` followed by `searchParams.append(k, v)` for each parameter in turn, then
   * `toString()`; also `${base}?${new URLSearchParams(...).toString()}`.
   */
  function WithParams(base: string, ps: seq<Param>): string {
    Href(base, EncodePairs(ps))
  }

  // ---------------------------------------------------------------- reference reader

  /** The query of a URL: the text after the first `?` and before the next `#`. */
  function QueryOf(url: string): string {
    match IndexOf(url, "?", 0)
    case None => ""
    case Some(i) =>
      var after := url[i + 1..];
      match IndexOf(after, "#", 0)
      case None => after
      case Some(j) => after[..j]
  }

  /** One `name=value` piece; a piece without `=` is a name with an empty value. */
  function ReadPair(part: string): Param {
    match IndexOf(part, "=", 0)
    case None => (part, "")
    case Some(i) => (part[..i], part[i + 1..])
  }

  /** Pieces in order, skipping empty ones. */
  function ReadPairs(parts: seq<string>): seq<Param>
    decreases |parts|
  {
    if parts == [] then []
    else if parts[0] == "" then ReadPairs(parts[1..])
    else [ReadPair(parts[0])] + ReadPairs(parts[1..])
  }

  /** The parameters of a URL's query as written, without decoding. */
  function ReadQuery(url: string): seq<Param> {
    ReadPairs(Split(QueryOf(url), "&"))
  }

  predicate IsHex(c: char) {
    ('0' <= c <= '9') || ('A' <= c <= 'F') || ('a' <= c <= 'f')
  }

  function HexValue(c: char): int
    requires IsHex(c)
  {
    if '0' <= c <= '9' then c as int - '0' as int
    else if 'A' <= c <= 'F' then c as int - 'A' as int + 10
    else c as int - 'a' as int + 10
  }

  /** The bytes a percent-encoded string stands for; a stray `%` stands for itself. */
  function PercentBytes(cs: Charset, s: string): seq<Utf8.Byte>
    decreases |s|
  {
    if s == [] then []
    else if s[0] == '%' && |s| >= 3 && IsHex(s[1]) && IsHex(s[2])
    then [HexValue(s[1]) * 16 + HexValue(s[2])] + PercentBytes(cs, s[3..])
    else if s[0] == '+' && cs == FormUrlencoded then [0x20] + PercentBytes(cs, s[1..])
    else Utf8.EncodeChar(s[0]) + PercentBytes(cs, s[1..])
  }

  function PercentDecode(cs: Charset, s: string): Option<string> {
    Utf8.Decode(PercentBytes(cs, s))
  }

  function DecodePairs(ps: seq<Param>): Option<seq<Param>>
    decreases |ps|
  {
    if ps == [] then Some([])
    else
      match (PercentDecode(FormUrlencoded, ps[0].0), PercentDecode(FormUrlencoded, ps[0].1), DecodePairs(ps[1..]))
      case (Some(k), Some(v), Some(rest)) => Some([(k, v)] + rest)
      case _ => None
  }

  /** The parameters of a URL's query, decoded as `URLSearchParams` decodes them. */
  function ReadParams(url: string): Option<seq<Param>> {
    DecodePairs(ReadQuery(url))
  }

  // ---------------------------------------------------------------- proofs

  /** A string that can stand as a query value written without escaping. */
  predicate Plain(s: string) {
    '&' !in s && '#' !in s
  }

  /** A string that can stand as a query name written without escaping. */
  predicate PlainName(s: string) {
    Plain(s) && '=' !in s
  }

  predicate PlainParams(ps: seq<Param>) {
    forall i :: 0 <= i < |ps| ==> PlainName(ps[i].0) && Plain(ps[i].1)
  }

  lemma ReadPairOf(k: string, v: string)
    requires '=' !in k
    ensures ReadPair(k + "=" + v) == (k, v)
  {
    var s := k + "=" + v;
    IndexOfAfter(k, '=', v);
    assert s[..|k|] == k;
    assert s[|k| + 1..] == v;
  }

  lemma {:induction false} ReadPairsOf(ps: seq<Param>)
    requires forall i :: 0 <= i < |ps| ==> '=' !in ps[i].0
    decreases |ps|
    ensures ReadPairs(Pairs(ps)) == ps
  {
    if ps != [] {
      ReadPairOf(ps[0].0, ps[0].1);
      assert Pairs(ps)[1..] == Pairs(ps[1..]);
      ReadPairsOf(ps[1..]);
      assert ps == [ps[0]] + ps[1..];
    }
  }

  /** A template-literal href reads back as exactly its parameters, in order. */
  lemma HrefReadsBack(path: string, ps: seq<Param>)
    requires '?' !in path && '#' !in path
    requires |ps| > 0 && PlainParams(ps)
    ensures ReadQuery(Href(path, ps)) == ps
  {
    var parts := Pairs(ps);
    var q := Join(parts, "&");
    forall k | 0 <= k < |parts| ensures '&' !in parts[k] && '#' !in parts[k] {
      assert parts[k] == ps[k].0 + "=" + ps[k].1;
    }
    NotInJoin(parts, '&', '#');
    IndexOfAfter(path, '?', q);
    assert Href(path, ps)[|path| + 1..] == q;
    IndexOfAbsent(q, '#');
    assert QueryOf(Href(path, ps)) == q;
    SplitJoin(parts, '&');
    ReadPairsOf(ps);
  }

  /** A character that is in none of the pieces and is not the separator is not in the join. */
  lemma {:induction false} NotInJoin(parts: seq<string>, sep: char, c: char)
    requires c != sep
    requires forall k :: 0 <= k < |parts| ==> c !in parts[k]
    decreases |parts|
    ensures c !in Join(parts, [sep])
  {
    if |parts| > 1 {
      NotInJoin(parts[1..], sep, c);
    }
  }

  /** What the serializers write is free of the characters that delimit a query. */
  lemma {:induction false} EncodedIsPlain(cs: Charset, s: string)
    decreases |s|
    ensures PlainName(PercentEncode(cs, s)) && '?' !in PercentEncode(cs, s)
  {
    if s != [] {
      EscapeIsPlain(Utf8.EncodeChar(s[0]));
      EncodedIsPlain(cs, s[1..]);
    }
  }

  lemma {:induction false} EscapeIsPlain(bs: seq<Utf8.Byte>)
    decreases |bs|
    ensures PlainName(Escape(bs)) && '?' !in Escape(bs)
  {
    if bs != [] {
      EscapeIsPlain(bs[1..]);
    }
  }

  lemma HexDigitValue(n: int)
    requires 0 <= n < 16
    ensures IsHex(HexDigit(n)) && HexValue(HexDigit(n)) == n
  {
  }

  lemma {:induction false} EscapeBytes(cs: Charset, bs: seq<Utf8.Byte>, rest: string)
    decreases |bs|
    ensures PercentBytes(cs, Escape(bs) + rest) == bs + PercentBytes(cs, rest)
  {
    if bs != [] {
      var s := Escape(bs) + rest;
      assert s == ['%', HexDigit(bs[0] / 16), HexDigit(bs[0] % 16)] + (Escape(bs[1..]) + rest);
      assert s[3..] == Escape(bs[1..]) + rest;
      HexDigitValue(bs[0] / 16);
      HexDigitValue(bs[0] % 16);
      assert bs[0] / 16 * 16 + bs[0] % 16 == bs[0];
      assert PercentBytes(cs, s) == [bs[0]] + PercentBytes(cs, s[3..]);
      EscapeBytes(cs, bs[1..], rest);
      assert bs == [bs[0]] + bs[1..];
    } else {
      assert Escape(bs) + rest == rest;
    }
  }

  lemma EncodeCharBytes(cs: Charset, c: char, rest: string)
    ensures PercentBytes(cs, EncodeChar(cs, c) + rest) == Utf8.EncodeChar(c) + PercentBytes(cs, rest)
  {
    if Keeps(cs, c) {
      assert ([c] + rest)[1..] == rest;
    } else if cs == FormUrlencoded && c == ' ' {
      assert ("+" + rest)[1..] == rest;
    } else {
      EscapeBytes(cs, Utf8.EncodeChar(c), rest);
    }
  }

  lemma {:induction false} PercentBytesEncode(cs: Charset, s: string)
    decreases |s|
    ensures PercentBytes(cs, PercentEncode(cs, s)) == Utf8.Encode(s)
  {
    if s != [] {
      EncodeCharBytes(cs, s[0], PercentEncode(cs, s[1..]));
      PercentBytesEncode(cs, s[1..]);
    }
  }

  /** Percent-decoding undoes either serializer, for every string. */
  lemma PercentRoundTrip(cs: Charset, s: string)
    ensures PercentDecode(cs, PercentEncode(cs, s)) == Some(s)
  {
    PercentBytesEncode(cs, s);
    Utf8.DecodeEncode(s);
  }

  lemma {:induction false} DecodeEncodedPairs(ps: seq<Param>)
    decreases |ps|
    ensures DecodePairs(EncodePairs(ps)) == Some(ps)
  {
    if ps != [] {
      PercentRoundTrip(FormUrlencoded, ps[0].0);
      PercentRoundTrip(FormUrlencoded, ps[0].1);
      assert EncodePairs(ps)[1..] == EncodePairs(ps[1..]);
      DecodeEncodedPairs(ps[1..]);
      assert ps == [ps[0]] + ps[1..];
    }
  }

  /** A string `URLSearchParams` decodes to itself: it holds neither `+` nor `%`. */
  predicate Verbatim(s: string) {
    '+' !in s && '%' !in s
  }

  lemma {:induction false} PercentBytesVerbatim(cs: Charset, s: string)
    requires Verbatim(s)
    decreases |s|
    ensures PercentBytes(cs, s) == Utf8.Encode(s)
  {
    if s != [] {
      assert s[0] in s;
      assert forall c :: c in s[1..] ==> c in s;
      PercentBytesVerbatim(cs, s[1..]);
    }
  }

  /** Decoding leaves a string without `+` and `%` as it is. */
  lemma DecodeVerbatim(cs: Charset, s: string)
    requires Verbatim(s)
    ensures PercentDecode(cs, s) == Some(s)
  {
    PercentBytesVerbatim(cs, s);
    Utf8.DecodeEncode(s);
  }

  lemma {:induction false} DecodePairsVerbatim(ps: seq<Param>)
    requires forall i :: 0 <= i < |ps| ==> Verbatim(ps[i].0) && Verbatim(ps[i].1)
    decreases |ps|
    ensures DecodePairs(ps) == Some(ps)
  {
    if ps != [] {
      DecodeVerbatim(FormUrlencoded, ps[0].0);
      DecodeVerbatim(FormUrlencoded, ps[0].1);
      DecodePairsVerbatim(ps[1..]);
      assert ps == [ps[0]] + ps[1..];
    }
  }

  /**
   * A template-literal href whose names and values hold no `+` or `%` reads back through
   * `URLSearchParams` as exactly its parameters, in order.
   */
  lemma HrefReadsBackDecoded(path: string, ps: seq<Param>)
    requires '?' !in path && '#' !in path
    requires |ps| > 0 && PlainParams(ps)
    requires forall i :: 0 <= i < |ps| ==> Verbatim(ps[i].0) && Verbatim(ps[i].1)
    ensures ReadParams(Href(path, ps)) == Some(ps)
  {
    HrefReadsBack(path, ps);
    DecodePairsVerbatim(ps);
  }

  /** A URL built with `searchParams.append` reads back as exactly the appended parameters, in order. */
  lemma WithParamsReadsBack(base: string, ps: seq<Param>)
    requires '?' !in base && '#' !in base
    requires |ps| > 0
    ensures ReadParams(WithParams(base, ps)) == Some(ps)
  {
    var eps := EncodePairs(ps);
    forall i | 0 <= i < |eps| ensures PlainName(eps[i].0) && Plain(eps[i].1) {
      EncodedIsPlain(FormUrlencoded, ps[i].0);
      EncodedIsPlain(FormUrlencoded, ps[i].1);
    }
    HrefReadsBack(base, eps);
    DecodeEncodedPairs(ps);
  }
}
