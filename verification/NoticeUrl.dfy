/** The win-notice URL: percent-encoding, the query it is built into, and a
    reference reader for it (bidder-server/src/win_notice.rs:53-68, 219-249). */
module NoticeUrl {
  import opened Common
  import opened Decimal

  type Byte = x: nat | x < 256

  /** The unreserved characters of section 2.3 of RFC 3986. */
  predicate Unreserved(b: Byte) {
    65 <= b <= 90 || 97 <= b <= 122 || 48 <= b <= 57 || b == 45 || b == 95 || b == 46 || b == 126
  }

  function Hex(d: nat): char
    requires d < 16
  {
    "0123456789ABCDEF"[d]
  }

  function EncodeByte(b: Byte): string {
    if Unreserved(b) then [b as char] else ['%', Hex(b / 16), Hex(b % 16)]
  }

  function Encode(s: seq<Byte>): string {
    if s == [] then "" else EncodeByte(s[0]) + Encode(s[1..])
  }

  lemma {:induction false} EncodeAppend(s: seq<Byte>, b: Byte)
    ensures Encode(s + [b]) == Encode(s) + EncodeByte(b)
  {
    if s == [] {
      assert [b][1..] == [] && s + [b] == [b];
    } else {
      assert (s + [b])[1..] == s[1..] + [b];
      EncodeAppend(s[1..], b);
    }
  }

  method PercentEncode(s: seq<Byte>) returns (out: string)
    ensures out == Encode(s)
  {
    out := "";
    for i := 0 to |s|
      invariant out == Encode(s[..i])
    {
      var b := s[i];
      assert s[..i + 1] == s[..i] + [b];
      EncodeAppend(s[..i], b);
      if Unreserved(b) {
        out := out + [b as char];
      } else {
        out := out + ['%'] + [Hex(b / 16), Hex(b % 16)];
      }
    }
    assert s[..|s|] == s;
  }

  /** The value of a hexadecimal digit, either case. */
  function HexValue(c: char): Option<nat> {
    if '0' <= c <= '9' then Some(c as int - '0' as int)
    else if 'A' <= c <= 'F' then Some(c as int - 'A' as int + 10)
    else if 'a' <= c <= 'f' then Some(c as int - 'a' as int + 10)
    else None
  }

  /** The sixteen digits and their values; the case of a letter does not matter. */
  lemma HexDigits(v: nat)
    requires v < 16
    ensures HexValue("0123456789ABCDEF"[v]) == HexValue("0123456789abcdef"[v]) == Some(v)
  {
  }

  /** A decoder for section 2.1 of RFC 3986; with `plusIsSpace` also the form encoding. */
  function Decode(t: string, plusIsSpace: bool): Option<seq<Byte>> {
    if t == "" then Some([])
    else if t[0] == '%' then
      if |t| < 3 then None
      else
        match (HexValue(t[1]), HexValue(t[2]), Decode(t[3..], plusIsSpace))
        case (Some(h), Some(l), Some(rest)) => if h < 16 && l < 16 then Some([16 * h + l] + rest) else None
        case _ => None
    else
      match Decode(t[1..], plusIsSpace)
      case None => None
      case Some(rest) =>
        if t[0] == '+' && plusIsSpace then Some([32] + rest)
        else if t[0] as int < 256 then Some([t[0] as int] + rest)
        else None
  }

  lemma HexRoundTrip(d: nat)
    requires d < 16
    ensures HexValue(Hex(d)) == Some(d)
  {
  }

  /** Letters, digits and `-`, `.`, `_`, `~` stay; every other byte becomes a percent sign and its
      two hexadecimal digits, in capitals. */
  lemma EncodeByteIs(b: Byte)
    ensures var c := b as char;
      if 'A' <= c <= 'Z' || 'a' <= c <= 'z' || '0' <= c <= '9' || c in {'-', '.', '_', '~'} then EncodeByte(b) == [c]
      else
        && |EncodeByte(b)| == 3 && EncodeByte(b)[0] == '%'
        && HexValue(EncodeByte(b)[1]) == Some(b / 16) && HexValue(EncodeByte(b)[2]) == Some(b % 16)
        && !('a' <= EncodeByte(b)[1] <= 'f') && !('a' <= EncodeByte(b)[2] <= 'f')
  {
    HexRoundTrip(b / 16);
    HexRoundTrip(b % 16);
  }

  lemma DecodeFirst(b: Byte, t: string, plusIsSpace: bool)
    ensures Decode(EncodeByte(b) + t, plusIsSpace)
         == match Decode(t, plusIsSpace) case None => None case Some(rest) => Some([b] + rest)
  {
    var s := EncodeByte(b) + t;
    if Unreserved(b) {
      assert s[0] == b as char && s[1..] == t;
    } else {
      HexRoundTrip(b / 16);
      HexRoundTrip(b % 16);
      assert s[0] == '%' && s[1] == Hex(b / 16) && s[2] == Hex(b % 16) && s[3..] == t;
    }
  }

  /** The encoding is reversible by either decoder, for every string of bytes. */
  lemma {:induction false} DecodeEncode(s: seq<Byte>, plusIsSpace: bool)
    ensures Decode(Encode(s), plusIsSpace) == Some(s)
  {
    if s != [] {
      DecodeEncode(s[1..], plusIsSpace);
      DecodeFirst(s[0], Encode(s[1..]), plusIsSpace);
      assert s == [s[0]] + s[1..];
    }
  }

  /** Characters that separate the parts of a URL query. */
  predicate Delimiter(c: char) { c == '&' || c == '=' || c == '?' || c == '#' || c == '+' }

  predicate Plain(s: string) { forall c :: c in s ==> !Delimiter(c) }

  lemma {:induction false} EncodePlain(s: seq<Byte>)
    ensures Plain(Encode(s))
  {
    if s != [] {
      EncodePlain(s[1..]);
      assert Plain(EncodeByte(s[0]));
    }
  }

  lemma NumbersPlain(n: nat, i: int)
    ensures Plain(Digits(n)) && Plain(SignedDigits(i))
  {
    ParseDigits(n);
    ParseSignedDigits(i);
  }

  // Queries: parameters joined by `&`.

  /** Every piece preceded by `&`. */
  function Tail(pieces: seq<string>): string {
    if pieces == [] then "" else "&" + pieces[0] + Tail(pieces[1..])
  }

  function Join(pieces: seq<string>): string
    requires pieces != []
  {
    pieces[0] + Tail(pieces[1..])
  }

  function Split(s: string): (pieces: seq<string>)
    ensures pieces != []
  {
    if s == "" then [""]
    else
      var rest := Split(s[1..]);
      if s[0] == '&' then [""] + rest else [[s[0]] + rest[0]] + rest[1..]
  }

  lemma {:induction false} SplitPiece(p: string, pieces: seq<string>)
    requires '&' !in p
    ensures Split(p + Tail(pieces)) == [p] + (if pieces == [] then [] else Split(pieces[0] + Tail(pieces[1..])))
    decreases |p|
  {
    var s := p + Tail(pieces);
    if p == "" {
      assert s == Tail(pieces);
      if pieces != [] {
        assert s[1..] == pieces[0] + Tail(pieces[1..]);
      }
    } else {
      assert s[1..] == p[1..] + Tail(pieces);
      SplitPiece(p[1..], pieces);
      assert [p[0]] + p[1..] == p;
    }
  }

  lemma {:induction false} SplitJoin(pieces: seq<string>)
    requires pieces != [] && forall p :: p in pieces ==> '&' !in p
    ensures Split(Join(pieces)) == pieces
    decreases |pieces|
  {
    assert pieces[0] in pieces;
    SplitPiece(pieces[0], pieces[1..]);
    if |pieces| > 1 {
      SplitJoin(pieces[1..]);
      assert Join(pieces[1..]) == pieces[1..][0] + Tail(pieces[1..][1..]);
    }
    assert pieces == [pieces[0]] + pieces[1..];
  }

  /** Splitting loses nothing. */
  lemma {:induction false} JoinSplit(s: string)
    ensures Join(Split(s)) == s
  {
    if s != "" {
      JoinSplit(s[1..]);
      var rest := Split(s[1..]);
      if s[0] == '&' {
        assert ([""] + rest)[1..] == rest;
        assert Join([""] + rest) == "&" + rest[0] + Tail(rest[1..]);
      } else {
        assert ([[s[0]] + rest[0]] + rest[1..])[1..] == rest[1..];
        assert [s[0]] + rest[0] + Tail(rest[1..]) == [s[0]] + (rest[0] + Tail(rest[1..]));
      }
    }
  }

  /** The text before the first `#`; what follows is the fragment. */
  function WithoutFragment(url: string): string {
    if url == "" || url[0] == '#' then "" else [url[0]] + WithoutFragment(url[1..])
  }

  /** The text after the first `?`, if there is one. */
  function AfterMark(s: string): Option<string> {
    if s == "" then None else if s[0] == '?' then Some(s[1..]) else AfterMark(s[1..])
  }

  /** The query component, sections 3.4 and 3.5 of RFC 3986. */
  function Query(url: string): Option<string> { AfterMark(WithoutFragment(url)) }

  lemma {:induction false} NoFragment(s: string)
    requires '#' !in s
    ensures WithoutFragment(s) == s
  {
    if s != "" {
      NoFragment(s[1..]);
    }
  }

  lemma {:induction false} FragmentStarts(s: string, rest: string)
    requires '#' in s
    ensures WithoutFragment(s + rest) == WithoutFragment(s)
  {
    if s[0] != '#' {
      assert (s + rest)[1..] == s[1..] + rest;
      FragmentStarts(s[1..], rest);
    }
  }

  lemma {:induction false} MarkAfterBase(base: string, q: string)
    requires '?' !in base
    ensures AfterMark(base + "?" + q) == Some(q)
  {
    if base == "" {
      assert (base + "?" + q)[1..] == q;
    } else {
      assert (base + "?" + q)[1..] == base[1..] + "?" + q;
      MarkAfterBase(base[1..], q);
    }
  }

  lemma {:induction false} MarkInsideBase(base: string, q: string)
    requires '?' in base
    ensures AfterMark(base + "?" + q).Some? && |AfterMark(base + "?" + q).value| > |q|
  {
    assert (base + "?" + q)[1..] == base[1..] + "?" + q;
    if base[0] != '?' {
      MarkInsideBase(base[1..], q);
    }
  }

  /** One parameter. */
  function Field(name: string, value: string): string { name + "=" + value }

  /** Whether the piece is a parameter of that name. */
  predicate Names(piece: string, name: string) {
    |name| < |piece| && piece[..|name|] == name && piece[|name|] == '='
  }

  /** The value of the first parameter of that name. */
  function Param(pieces: seq<string>, name: string): Option<string> {
    if pieces == [] then None
    else if Names(pieces[0], name) then Some(pieces[0][|name| + 1..])
    else Param(pieces[1..], name)
  }

  lemma FieldNames(nm: string, value: string, name: string)
    requires Plain(nm) && Plain(name)
    ensures Names(Field(nm, value), name) <==> nm == name
    ensures Field(nm, value)[|nm| + 1..] == value
  {
    var piece := Field(nm, value);
    assert piece[|nm|] == '=' && piece[..|nm|] == nm;
    assert forall i :: 0 <= i < |nm| ==> nm[i] in nm && piece[i] == nm[i];
    assert forall i :: 0 <= i < |name| ==> name[i] in name;
  }

  // The notice itself.

  datatype WinNotice = WinNotice(
    requestId: seq<Byte>, impId: seq<Byte>, campaignId: nat, creativeId: nat,
    clearingPriceMicros: int, userId: seq<Byte>, exchangeId: seq<Byte>)

  datatype Key = RequestId | ImpId | Campaign | Creative | ClearingPrice | UserId | ExchangeId | Token

  function Name(k: Key): string {
    match k
    case RequestId => "request_id"
    case ImpId => "imp_id"
    case Campaign => "campaign_id"
    case Creative => "creative_id"
    case ClearingPrice => "clearing_price_micros"
    case UserId => "user_id"
    case ExchangeId => "exchange_id"
    case Token => "token"
  }

  lemma NamePlain(k: Key)
    ensures Plain(Name(k))
  {
    match k
    case RequestId => assert forall i :: 0 <= i < 10 ==> !Delimiter("request_id"[i]);
    case Campaign => assert forall i :: 0 <= i < 11 ==> !Delimiter("campaign_id"[i]);
    case Creative => assert forall i :: 0 <= i < 11 ==> !Delimiter("creative_id"[i]);
    case ExchangeId => assert forall i :: 0 <= i < 11 ==> !Delimiter("exchange_id"[i]);
    case ClearingPrice => LongNamePlain();
    case _ =>
  }

  lemma LongNamePlain()
    ensures Plain(Name(ClearingPrice))
  {
    var name := Name(ClearingPrice);
    assert name == "clearing_" + "price_" + "micros";
    assert Plain("clearing_") && Plain("price_") && Plain("micros");
  }

  lemma NameInjective(k: Key, k': Key)
    ensures Name(k) == Name(k') <==> k == k'
  {
    assert Name(Campaign)[1] != Name(Creative)[1] && Name(ExchangeId)[0] != Name(Campaign)[0];
  }

  /** The parameters in the order of the format string; the exchange and the token are
      left out when there is none. */
  function Params(n: WinNotice, token: Option<string>): seq<(Key, string)> {
    [(RequestId, Encode(n.requestId)), (ImpId, Encode(n.impId)),
     (Campaign, Digits(n.campaignId)), (Creative, Digits(n.creativeId)),
     (ClearingPrice, SignedDigits(n.clearingPriceMicros)), (UserId, Encode(n.userId))]
    + (if n.exchangeId == [] then [] else [(ExchangeId, Encode(n.exchangeId))])
    + (match token case None => [] case Some(t) => [(Token, t)])
  }

  function Pieces(params: seq<(Key, string)>): (pieces: seq<string>)
    ensures |pieces| == |params|
  {
    seq(|params|, i requires 0 <= i < |params| => Field(Name(params[i].0), params[i].1))
  }

  /** `build`: the base, a question mark and the parameters joined by `&`, unless no
      base is configured. The token, if any, is a string of hexadecimal digits. */
  function Build(base: string, n: WinNotice, token: Option<string>): Option<string> {
    if base == "" then None else Some(base + "?" + Join(Pieces(Params(n, token))))
  }

  /** The format of the URL: the named fields in order, the exchange and the token only if there are any. */
  lemma BuildIs(base: string, n: WinNotice, token: Option<string>)
    ensures base == "" ==> Build(base, n, token) == None
    ensures base != "" ==> Build(base, n, token) == Some(base + "?" + Join(
      ["request_id" + "=" + Encode(n.requestId), "imp_id" + "=" + Encode(n.impId),
       "campaign_id" + "=" + Digits(n.campaignId), "creative_id" + "=" + Digits(n.creativeId),
       "clearing_price_micros" + "=" + SignedDigits(n.clearingPriceMicros), "user_id" + "=" + Encode(n.userId)]
      + (if n.exchangeId == [] then [] else ["exchange_id" + "=" + Encode(n.exchangeId)])
      + (match token case None => [] case Some(t) => ["token" + "=" + t])))
  {
    assert Pieces(Params(n, token)) ==
      ["request_id" + "=" + Encode(n.requestId), "imp_id" + "=" + Encode(n.impId),
       "campaign_id" + "=" + Digits(n.campaignId), "creative_id" + "=" + Digits(n.creativeId),
       "clearing_price_micros" + "=" + SignedDigits(n.clearingPriceMicros), "user_id" + "=" + Encode(n.userId)]
      + (if n.exchangeId == [] then [] else ["exchange_id" + "=" + Encode(n.exchangeId)])
      + (match token case None => [] case Some(t) => ["token" + "=" + t]);
  }

  lemma {:induction false} ParamAt(params: seq<(Key, string)>, k: nat)
    requires k < |params| && forall j :: 0 <= j < k ==> params[j].0 != params[k].0
    ensures Param(Pieces(params), Name(params[k].0)) == Some(params[k].1)
    decreases k
  {
    NamePlain(params[0].0);
    NamePlain(params[k].0);
    NameInjective(params[0].0, params[k].0);
    FieldNames(Name(params[0].0), params[0].1, Name(params[k].0));
    assert Pieces(params)[1..] == Pieces(params[1..]);
    if k > 0 {
      ParamAt(params[1..], k - 1);
    }
  }

  lemma {:induction false} ParamAbsent(params: seq<(Key, string)>, key: Key)
    requires forall j :: 0 <= j < |params| ==> params[j].0 != key
    ensures Param(Pieces(params), Name(key)) == None
    decreases |params|
  {
    if params != [] {
      NamePlain(params[0].0);
      NamePlain(key);
      NameInjective(params[0].0, key);
      FieldNames(Name(params[0].0), params[0].1, Name(key));
      assert Pieces(params)[1..] == Pieces(params[1..]);
      ParamAbsent(params[1..], key);
    }
  }

  ghost predicate TokenOk(token: Option<string>) { token.Some? ==> Plain(token.value) }

  lemma ValuesPlain(n: WinNotice, token: Option<string>)
    requires TokenOk(token)
    ensures forall i :: 0 <= i < |Params(n, token)| ==> Plain(Params(n, token)[i].1)
  {
    EncodePlain(n.requestId);
    EncodePlain(n.impId);
    EncodePlain(n.userId);
    EncodePlain(n.exchangeId);
    NumbersPlain(n.campaignId, n.clearingPriceMicros);
    NumbersPlain(n.creativeId, 0);
  }

  lemma PiecesSplit(n: WinNotice, token: Option<string>)
    requires TokenOk(token)
    ensures Split(Join(Pieces(Params(n, token)))) == Pieces(Params(n, token))
  {
    var params := Params(n, token);
    ValuesPlain(n, token);
    forall i | 0 <= i < |params| ensures '&' !in Pieces(params)[i] {
      NamePlain(params[i].0);
    }
    SplitJoin(Pieces(params));
  }

  lemma {:induction false} TailNoHash(pieces: seq<string>)
    requires forall p :: p in pieces ==> '#' !in p
    ensures '#' !in Tail(pieces)
  {
    if pieces != [] {
      assert pieces[0] in pieces;
      TailNoHash(pieces[1..]);
    }
  }

  lemma ParamsNoHash(n: WinNotice, token: Option<string>)
    requires TokenOk(token)
    ensures '#' !in Join(Pieces(Params(n, token)))
  {
    var params := Params(n, token);
    ValuesPlain(n, token);
    forall i | 0 <= i < |params| ensures '#' !in Pieces(params)[i] {
      NamePlain(params[i].0);
    }
    TailNoHash(Pieces(params)[1..]);
  }

  /** The query of the built URL is exactly the list of parameters. */
  ghost predicate QueryIsParams(base: string, n: WinNotice, token: Option<string>)
    requires base != ""
  {
    var query := Query(Build(base, n, token).value);
    query.Some? && Split(query.value) == Pieces(Params(n, token))
  }

  lemma PlainBaseWorks(base: string, n: WinNotice, token: Option<string>)
    requires base != "" && TokenOk(token) && '?' !in base && '#' !in base
    ensures QueryIsParams(base, n, token)
  {
    var q := Join(Pieces(Params(n, token)));
    PiecesSplit(n, token);
    ParamsNoHash(n, token);
    NoFragment(base + "?" + q);
    MarkAfterBase(base, q);
  }

  /** A question mark of the base glues its own text to the parameters. */
  lemma MarkedBaseFails(base: string, n: WinNotice, token: Option<string>)
    requires TokenOk(token) && '?' in base && '#' !in base
    ensures !QueryIsParams(base, n, token)
  {
    var q := Join(Pieces(Params(n, token)));
    PiecesSplit(n, token);
    ParamsNoHash(n, token);
    NoFragment(base + "?" + q);
    MarkInsideBase(base, q);
    JoinSplit(AfterMark(base + "?" + q).value);
  }

  lemma FirstPiece(n: WinNotice, token: Option<string>)
    ensures Pieces(Params(n, token)) != []
    ensures |Pieces(Params(n, token))[0]| == |Name(RequestId)| + 1 + |Encode(n.requestId)|
  {
  }

  /** A fragment of the base swallows the parameters: the query is that of the base. */
  lemma FragmentHides(base: string, n: WinNotice, token: Option<string>)
    requires '#' in base
    ensures Query(Build(base, n, token).value) == Query(base)
  {
    var q := Join(Pieces(Params(n, token)));
    assert base + "?" + q == base + ("?" + q);
    FragmentStarts(base, "?" + q);
  }

  lemma FragmentBaseFails(base: string, n: WinNotice, m: WinNotice, token: Option<string>)
    requires '#' in base && |Encode(n.requestId)| != |Encode(m.requestId)|
    ensures !QueryIsParams(base, n, token) || !QueryIsParams(base, m, token)
  {
    FragmentHides(base, n, token);
    FragmentHides(base, m, token);
    FirstPiece(n, token);
    FirstPiece(m, token);
  }

  /** A base serves every notice if and only if it has neither a query nor a fragment. */
  lemma QueryIsParamsIff(base: string)
    requires base != ""
    ensures (forall n, token :: TokenOk(token) ==> QueryIsParams(base, n, token)) <==> '?' !in base && '#' !in base
  {
    if '?' !in base && '#' !in base {
      forall n, token | TokenOk(token) ensures QueryIsParams(base, n, token) {
        PlainBaseWorks(base, n, token);
      }
    } else {
      var n := WinNotice([], [], 0, 0, 0, [], []);
      if '#' in base {
        assert Encode([65]) == EncodeByte(65) + Encode([]);
        FragmentBaseFails(base, n, n.(requestId := [65]), None);
      } else {
        MarkedBaseFails(base, n, None);
      }
      assert TokenOk(None);
    }
  }

  // Reading the notice back.

  function BytesOf(v: Option<string>, plusIsSpace: bool): Option<seq<Byte>> {
    match v
    case None => None
    case Some(t) => Decode(t, plusIsSpace)
  }

  function NumberOf(v: Option<string>): Option<nat> {
    match v
    case None => None
    case Some(t) => Parse(t)
  }

  function SignedOf(v: Option<string>): Option<int> {
    match v
    case None => None
    case Some(t) => ParseSigned(t)
  }

  /** The notice and the token a reader finds when `get` looks up the parameters. */
  function Assemble(get: Key -> Option<string>, plusIsSpace: bool): Option<(WinNotice, Option<string>)> {
    var exchange := if get(ExchangeId).None? then Some([]) else BytesOf(get(ExchangeId), plusIsSpace);
    match (BytesOf(get(RequestId), plusIsSpace), BytesOf(get(ImpId), plusIsSpace), NumberOf(get(Campaign)),
           NumberOf(get(Creative)), SignedOf(get(ClearingPrice)), BytesOf(get(UserId), plusIsSpace), exchange)
    case (Some(r), Some(i), Some(c), Some(cr), Some(p), Some(u), Some(x)) =>
      Some((WinNotice(r, i, c, cr, p, u, x), get(Token)))
    case _ => None
  }

  /** Reads a notice URL: the query after the first `?`, split at `&`, looked up by name. */
  function ReadUrl(url: string, plusIsSpace: bool): Option<(WinNotice, Option<string>)> {
    match Query(url)
    case None => None
    case Some(q) => Assemble(k => Param(Split(q), Name(k)), plusIsSpace)
  }

  /** The value the built URL carries for each key. */
  ghost function Carried(n: WinNotice, token: Option<string>, k: Key): Option<string> {
    match k
    case RequestId => Some(Encode(n.requestId))
    case ImpId => Some(Encode(n.impId))
    case Campaign => Some(Digits(n.campaignId))
    case Creative => Some(Digits(n.creativeId))
    case ClearingPrice => Some(SignedDigits(n.clearingPriceMicros))
    case UserId => Some(Encode(n.userId))
    case ExchangeId => if n.exchangeId == [] then None else Some(Encode(n.exchangeId))
    case Token => token
  }

  /** Where a key stands among the parameters. */
  ghost function Position(n: WinNotice, k: Key): nat {
    match k
    case RequestId => 0
    case ImpId => 1
    case Campaign => 2
    case Creative => 3
    case ClearingPrice => 4
    case UserId => 5
    case ExchangeId => 6
    case Token => if n.exchangeId == [] then 6 else 7
  }

  lemma ParamPlace(n: WinNotice, token: Option<string>, k: Key)
    requires Carried(n, token, k).Some?
    ensures var params := Params(n, token);
      && Position(n, k) < |params| && params[Position(n, k)] == (k, Carried(n, token, k).value)
      && forall j :: 0 <= j < Position(n, k) ==> params[j].0 != k
  {
  }

  lemma ParamCarried(n: WinNotice, token: Option<string>, k: Key)
    ensures Param(Pieces(Params(n, token)), Name(k)) == Carried(n, token, k)
  {
    if Carried(n, token, k).Some? {
      ParamPlace(n, token, k);
      ParamAt(Params(n, token), Position(n, k));
    } else {
      ParamAbsent(Params(n, token), k);
    }
  }

  lemma AssembleCarried(get: Key -> Option<string>, n: WinNotice, token: Option<string>, plusIsSpace: bool)
    requires forall k :: get(k) == Carried(n, token, k)
    ensures Assemble(get, plusIsSpace) == Some((n, token))
  {
    DecodeEncode(n.requestId, plusIsSpace);
    DecodeEncode(n.impId, plusIsSpace);
    DecodeEncode(n.userId, plusIsSpace);
    DecodeEncode(n.exchangeId, plusIsSpace);
    ParseDigits(n.campaignId);
    ParseDigits(n.creativeId);
    ParseSignedDigits(n.clearingPriceMicros);
  }

  /** Reading the built URL returns the notice that went in, whatever bytes its
      identifiers hold, for both kinds of decoder. */
  lemma NoticeRoundTrip(base: string, n: WinNotice, token: Option<string>, plusIsSpace: bool)
    requires base != "" && '?' !in base && '#' !in base && TokenOk(token)
    ensures ReadUrl(Build(base, n, token).value, plusIsSpace) == Some((n, token))
  {
    PlainBaseWorks(base, n, token);
    var q := Query(Build(base, n, token).value).value;
    var get: Key -> Option<string> := k => Param(Split(q), Name(k));
    forall k ensures get(k) == Carried(n, token, k) {
      ParamCarried(n, token, k);
    }
    AssembleCarried(get, n, token, plusIsSpace);
    assert ReadUrl(Build(base, n, token).value, plusIsSpace) == Assemble(get, plusIsSpace);
  }
}
