/** Plan and leg identity inside broker comments and client order ids: what is written can
    be read back, and never as another plan. The digest behind the legacy token is a
    parameter. */
module TradePlanOwnership {
  import opened Common
  import opened Text

  // ----- leg ids --------------------------------------------------------------------------------

  const INT_MAX := 2147483647
  const RISK := "RISK"

  /** int.TryParse: white space around, one sign, digits, 32-bit range. */
  function ParseInt(s: string): Option<int> {
    var t := Trim(s);
    var negative := t != [] && t[0] == '-';
    var body := if t != [] && (t[0] == '-' || t[0] == '+') then t[1..] else t;
    var value := DigitsValue(body);
    if body == [] || value.None? then None
    else
      var n: int := if negative then -(value.value as int) else value.value;
      if -INT_MAX - 1 <= n <= INT_MAX then Some(n) else None
  }

  function Upper(c: char): char {
    if 'a' <= c <= 'z' then ((c as int) - 32) as char else c
  }

  function UpperCase(s: string): (u: string)
    ensures |u| == |s| && forall i :: 0 <= i < |s| ==> u[i] == Upper(s[i])
  {
    seq(|s|, i requires 0 <= i < |s| => Upper(s[i]))
  }

  function LegName(n: int): string {
    if n >= 0 then "L" + Decimal(n) else "L-" + Decimal(-n)
  }

  /** "L1" and "l1" keep their number, a bare number n is the legacy 0-based index n, with
      the 32-bit wrap of n + 1; "RISK" in any case is itself. */
  function NormalizeLegId(token: string): Option<string> {
    if IsBlank(token) then None
    else if UpperCase(token) == RISK then Some(RISK)
    else
      var numbered := if |token| >= 2 && (token[0] == 'L' || token[0] == 'l') then ParseInt(token[1..]) else None;
      if numbered.Some? && numbered.value >= 1 then Some(LegName(numbered.value))
      else
        var zeroBased := ParseInt(token);
        if zeroBased.Some? && zeroBased.value >= 0
        then Some(LegName(if zeroBased.value == INT_MAX then -INT_MAX - 1 else zeroBased.value + 1))
        else None
  }

  predicate CanonicalLeg(legId: string) {
    legId == RISK || exists n :: 1 <= n <= INT_MAX && legId == LegName(n)
  }

  lemma ParseDecimal(n: nat)
    requires n <= INT_MAX
    ensures ParseInt(Decimal(n)) == Some(n)
  {
    DecimalValue(n);
    var s := Decimal(n);
    assert IsDigit(s[0]) && IsDigit(s[|s| - 1]);
    TidyTrims(s);
  }

  /** Canonical ids are the fixed points of normalisation. */
  lemma CanonicalIsFixed(legId: string)
    requires CanonicalLeg(legId)
    ensures NormalizeLegId(legId) == Some(legId)
    ensures Free(legId, '|') && Free(legId, ':') && Free(legId, '.') && legId != []
  {
    if legId != RISK {
      var n :| 1 <= n <= INT_MAX && legId == LegName(n);
      assert legId == "L" + Decimal(n) && legId[1..] == Decimal(n);
      ParseDecimal(n);
      assert UpperCase(legId)[0] == 'L' && RISK[0] == 'R';
    } else {
      assert UpperCase(legId) == RISK && !IsSpace(RISK[0]);
    }
  }

  /** Whatever normalises, bar the one index whose increment wraps, becomes canonical. */
  lemma NormalizedIsCanonical(token: string)
    requires ParseInt(token) != Some(INT_MAX)
    ensures NormalizeLegId(token).Some? ==> CanonicalLeg(NormalizeLegId(token).value)
  {}

  // ----- hex ------------------------------------------------------------------------------------------

  predicate IsHexDigit(c: char) { '0' <= c <= '9' || 'a' <= c <= 'f' || 'A' <= c <= 'F' }
  predicate IsLowerHex(c: char) { '0' <= c <= '9' || 'a' <= c <= 'f' }

  function HexValue(c: char): (v: nat)
    requires IsHexDigit(c)
    ensures v < 16
  {
    if '0' <= c <= '9' then (c as int) - ('0' as int)
    else if 'a' <= c <= 'f' then (c as int) - ('a' as int) + 10
    else (c as int) - ('A' as int) + 10
  }

  function HexChar(v: nat): (c: char)
    requires v < 16
    ensures IsLowerHex(c)
  {
    "0123456789abcdef"[v]
  }

  function Lower(c: char): char {
    if 'A' <= c <= 'Z' then ((c as int) + 32) as char else c
  }

  predicate Bytes(b: seq<nat>) { forall i :: 0 <= i < |b| ==> b[i] < 256 }

  function FromHex(s: string): (b: seq<nat>)
    requires |s| % 2 == 0 && forall i :: 0 <= i < |s| ==> IsHexDigit(s[i])
    ensures |b| == |s| / 2 && Bytes(b)
  {
    if s == [] then [] else [HexValue(s[0]) * 16 + HexValue(s[1])] + FromHex(s[2..])
  }

  function ToHexLower(b: seq<nat>): (s: string)
    requires Bytes(b)
    ensures |s| == 2 * |b| && forall i :: 0 <= i < |s| ==> IsLowerHex(s[i])
  {
    if b == [] then [] else [HexChar(b[0] / 16), HexChar(b[0] % 16)] + ToHexLower(b[1..])
  }

  lemma HexCharValue(c: char)
    requires IsHexDigit(c)
    ensures HexChar(HexValue(c)) == Lower(c)
    ensures IsLowerHex(c) <==> Lower(c) == c
  {}

  function LowerCase(s: string): (l: string)
    ensures |l| == |s| && forall i :: 0 <= i < |s| ==> l[i] == Lower(s[i])
  {
    seq(|s|, i requires 0 <= i < |s| => Lower(s[i]))
  }

  lemma {:induction false} HexRoundTrip(s: string)
    requires |s| % 2 == 0 && forall i :: 0 <= i < |s| ==> IsHexDigit(s[i])
    ensures ToHexLower(FromHex(s)) == LowerCase(s)
  {
    if s == [] {
      assert LowerCase(s) == [];
    } else {
      HexRoundTrip(s[2..]);
      HexCharValue(s[0]);
      HexCharValue(s[1]);
      var b := FromHex(s);
      var hi, lo := HexValue(s[0]), HexValue(s[1]);
      assert b[0] == hi * 16 + lo && b[1..] == FromHex(s[2..]);
      assert b[0] / 16 == hi && b[0] % 16 == lo;
      assert LowerCase(s) == [Lower(s[0]), Lower(s[1])] + LowerCase(s[2..]);
    }
  }

  // ----- base64 (RFC 4648, sections 4 and 5) -----------------------------------------------------------

  function SextetChar(v: nat): char
    requires v < 64
  {
    if v < 26 then (v + 'A' as int) as char
    else if v < 52 then (v - 26 + 'a' as int) as char
    else if v < 62 then (v - 52 + '0' as int) as char
    else if v == 62 then '+' else '/'
  }

  function Sextet(c: char): (v: Option<nat>)
    ensures v.Some? ==> v.value < 64
  {
    if 'A' <= c <= 'Z' then Some((c as int) - ('A' as int))
    else if 'a' <= c <= 'z' then Some((c as int) - ('a' as int) + 26)
    else if '0' <= c <= '9' then Some((c as int) - ('0' as int) + 52)
    else if c == '+' then Some(62)
    else if c == '/' then Some(63)
    else None
  }

  lemma SextetRoundTrip(v: nat)
    requires v < 64
    ensures Sextet(SextetChar(v)) == Some(v)
    ensures SextetChar(v) != '=' && SextetChar(v) != '-' && SextetChar(v) != '_'
  {}

  // Three bytes are four sextets; a short last group reads missing bytes as zero.
  function G0(b0: nat): (v: nat) requires b0 < 256 ensures v < 64 { b0 / 4 }
  function G1(b0: nat, b1: nat): (v: nat) requires b1 < 256 ensures v < 64 { b0 % 4 * 16 + b1 / 16 }
  function G2(b1: nat, b2: nat): (v: nat) requires b2 < 256 ensures v < 64 { b1 % 16 * 4 + b2 / 64 }
  function G3(b2: nat): (v: nat) ensures v < 64 { b2 % 64 }
  function B0(v0: nat, v1: nat): (b: nat) requires v0 < 64 && v1 < 64 ensures b < 256 { v0 * 4 + v1 / 16 }
  function B1(v1: nat, v2: nat): (b: nat) requires v2 < 64 ensures b < 256 { v1 % 16 * 16 + v2 / 4 }
  function B2(v2: nat, v3: nat): (b: nat) requires v3 < 64 ensures b < 256 { v2 % 4 * 64 + v3 }

  lemma GroupInverse(b0: nat, b1: nat, b2: nat)
    requires b0 < 256 && b1 < 256 && b2 < 256
    ensures B0(G0(b0), G1(b0, b1)) == b0
    ensures B1(G1(b0, b1), G2(b1, b2)) == b1
    ensures B2(G2(b1, b2), G3(b2)) == b2
  {}

  function ToBase64(b: seq<nat>): string
    requires Bytes(b)
  {
    if b == [] then []
    else
      var c0 := SextetChar(G0(b[0]));
      if |b| == 1 then [c0, SextetChar(G1(b[0], 0)), '=', '=']
      else
        var c1 := SextetChar(G1(b[0], b[1]));
        if |b| == 2 then [c0, c1, SextetChar(G2(b[1], 0)), '=']
        else [c0, c1, SextetChar(G2(b[1], b[2])), SextetChar(G3(b[2]))] + ToBase64(b[3..])
  }

  /** Convert.FromBase64String on text without white space; None is its FormatException. */
  function FromBase64(s: string): (b: Option<seq<nat>>)
    ensures b.Some? ==> Bytes(b.value) && 4 * |b.value| <= 3 * |s|
  {
    if s == [] then Some([])
    else if |s| < 4 then None
    else
      var v0, v1 := Sextet(s[0]), Sextet(s[1]);
      if v0.None? || v1.None? then None
      else if |s| == 4 && s[2] == '=' && s[3] == '=' then Some([B0(v0.value, v1.value)])
      else
        var v2 := Sextet(s[2]);
        if v2.None? then None
        else if |s| == 4 && s[3] == '=' then Some([B0(v0.value, v1.value), B1(v1.value, v2.value)])
        else
          var v3, rest := Sextet(s[3]), FromBase64(s[4..]);
          if v3.None? || rest.None? then None
          else Some([B0(v0.value, v1.value), B1(v1.value, v2.value), B2(v2.value, v3.value)] + rest.value)
  }

  lemma {:induction false} Base64RoundTrip(b: seq<nat>)
    requires Bytes(b)
    ensures FromBase64(ToBase64(b)) == Some(b)
  {
    hide G0, G1, G2, G3, B0, B1, B2, Sextet, SextetChar;
    if b != [] {
      var s := ToBase64(b);
      SextetRoundTrip(G0(b[0]));
      if |b| == 1 {
        SextetRoundTrip(G1(b[0], 0));
        GroupInverse(b[0], 0, 0);
        assert b == [b[0]];
      } else {
        SextetRoundTrip(G1(b[0], b[1]));
        if |b| == 2 {
          SextetRoundTrip(G2(b[1], 0));
          GroupInverse(b[0], b[1], 0);
          assert b == [b[0], b[1]];
        } else {
          SextetRoundTrip(G2(b[1], b[2]));
          SextetRoundTrip(G3(b[2]));
          GroupInverse(b[0], b[1], b[2]);
          assert s[4..] == ToBase64(b[3..]);
          Base64RoundTrip(b[3..]);
          assert [b[0], b[1], b[2]] + b[3..] == b;
        }
      }
    }
  }

  function TrimEquals(s: string): string {
    if s != [] && s[|s| - 1] == '=' then TrimEquals(s[..|s| - 1]) else s
  }

  function ToUrl(c: char): char { if c == '+' then '-' else if c == '/' then '_' else c }
  function FromUrl(c: char): char { if c == '-' then '+' else if c == '_' then '/' else c }

  function UrlSafe(s: string): (u: string)
    ensures |u| == |s| && forall i :: 0 <= i < |s| ==> u[i] == ToUrl(s[i])
  {
    seq(|s|, i requires 0 <= i < |s| => ToUrl(s[i]))
  }

  function UrlUnsafe(s: string): (u: string)
    ensures |u| == |s| && forall i :: 0 <= i < |s| ==> u[i] == FromUrl(s[i])
  {
    seq(|s|, i requires 0 <= i < |s| => FromUrl(s[i]))
  }

  function Padded(s: string): string { s + seq((4 - |s| % 4) % 4, _ => '=') }

  /** The unpadded text: everything before the padding of the last group. */
  predicate Plain(s: string) { forall i :: 0 <= i < |s| ==> Sextet(s[i]).Some? }

  function TrimmedLength(n: nat): nat { n / 3 * 4 + (if n % 3 == 0 then 0 else n % 3 + 1) }

  predicate TrimsWell(b: seq<nat>)
    requires Bytes(b)
  {
    var s := ToBase64(b);
    var t := TrimEquals(s);
    Plain(t) && Padded(t) == s && |t| == TrimmedLength(|b|)
  }

  lemma PlainGroup(head: string, t: string)
    requires |head| == 4 && Plain(head) && Plain(t)
    ensures Plain(head + t) && Padded(head + t) == head + Padded(t)
  {}

  lemma {:induction false} TrimmedBase64(b: seq<nat>)
    requires Bytes(b)
    ensures TrimsWell(b)
  {
    hide G0, G1, G2, G3, Sextet, SextetChar, Plain;
    if b == [] {
      EmptyTrims();
    } else if |b| == 1 {
      SextetRoundTrip(G0(b[0]));
      SextetRoundTrip(G1(b[0], 0));
      TrimTwo(SextetChar(G0(b[0])), SextetChar(G1(b[0], 0)));
    } else if |b| == 2 {
      SextetRoundTrip(G0(b[0]));
      SextetRoundTrip(G1(b[0], b[1]));
      SextetRoundTrip(G2(b[1], 0));
      TrimOne(SextetChar(G0(b[0])), SextetChar(G1(b[0], b[1])), SextetChar(G2(b[1], 0)));
    } else {
      TrimmedBase64(b[3..]);
      SextetRoundTrip(G0(b[0]));
      SextetRoundTrip(G1(b[0], b[1]));
      SextetRoundTrip(G2(b[1], b[2]));
      SextetRoundTrip(G3(b[2]));
      var head := [SextetChar(G0(b[0])), SextetChar(G1(b[0], b[1])), SextetChar(G2(b[1], b[2])), SextetChar(G3(b[2]))];
      FourPlain(head);
      TrimTail(head, ToBase64(b[3..]));
      PlainGroup(head, TrimEquals(ToBase64(b[3..])));
      assert |b| / 3 == |b[3..]| / 3 + 1 && |b| % 3 == |b[3..]| % 3;
    }
  }

  lemma EmptyTrims()
    ensures TrimsWell([])
  {}

  lemma FourPlain(head: string)
    requires |head| == 4 && Sextet(head[0]).Some? && Sextet(head[1]).Some? && Sextet(head[2]).Some? && Sextet(head[3]).Some?
    ensures Plain(head)
  {}

  lemma TrimTwo(a: char, b: char)
    requires Sextet(a).Some? && Sextet(b).Some?
    ensures TrimEquals([a, b, '=', '=']) == [a, b] && Plain([a, b]) && Padded([a, b]) == [a, b, '=', '=']
  {
    var three := [a, b, '='];
    assert [a, b, '=', '='][..3] == three && three[..2] == [a, b];
    assert TrimEquals([a, b]) == [a, b];
    assert TrimEquals(three) == [a, b];
  }

  lemma TrimOne(a: char, b: char, c: char)
    requires Sextet(a).Some? && Sextet(b).Some? && Sextet(c).Some?
    ensures TrimEquals([a, b, c, '=']) == [a, b, c] && Plain([a, b, c]) && Padded([a, b, c]) == [a, b, c, '=']
  {
    assert [a, b, c, '='][..3] == [a, b, c];
  }

  lemma {:induction false} TrimTail(head: string, tail: string)
    requires Plain(head)
    ensures TrimEquals(head + tail) == head + TrimEquals(tail)
  {
    var s := head + tail;
    if tail == [] {
      assert s == head;
      if head != [] {
        assert Sextet(head[|head| - 1]).Some?;
      }
    } else if tail[|tail| - 1] == '=' {
      TrimTail(head, tail[..|tail| - 1]);
      assert s[..|s| - 1] == head + tail[..|tail| - 1];
    }
  }

  // ----- Go plan ids ----------------------------------------------------------------------------------

  const GO_PREFIX := "v8:go_opp_"
  const HASH_DIGITS := 64

  predicate IsGoPlanId(planId: string) {
    && |planId| == |GO_PREFIX| + HASH_DIGITS && GO_PREFIX <= planId
    && forall i :: |GO_PREFIX| <= i < |planId| ==> IsHexDigit(planId[i])
  }

  predicate LowerHash(planId: string) {
    forall i :: |GO_PREFIX| <= i < |planId| ==> IsLowerHex(planId[i])
  }

  function EncodeGoPlanId(planId: string): Option<string> {
    if !IsGoPlanId(planId) then None
    else Some(UrlSafe(TrimEquals(ToBase64(FromHex(planId[|GO_PREFIX|..])))))
  }

  function DecodeGoPlanToken(token: string): Option<string> {
    var bytes := FromBase64(Padded(UrlUnsafe(token)));
    if bytes.Some? && |bytes.value| == 32 then Some(GO_PREFIX + ToHexLower(bytes.value)) else None
  }

  lemma UrlInverse(s: string)
    requires Plain(s)
    ensures UrlUnsafe(UrlSafe(s)) == s
    ensures Free(UrlSafe(s), '|') && Free(UrlSafe(s), ':') && Free(UrlSafe(s), '.') && Free(UrlSafe(s), '=')
  {
    forall i | 0 <= i < |s|
      ensures FromUrl(ToUrl(s[i])) == s[i]
      ensures ToUrl(s[i]) != '|' && ToUrl(s[i]) != ':' && ToUrl(s[i]) != '.' && ToUrl(s[i]) != '='
    {
      assert Sextet(s[i]).Some?;
    }
  }

  /** A Go plan id becomes 43 characters that decode to the same id in lower case. */
  lemma EncodeDecode(planId: string)
    requires IsGoPlanId(planId)
    ensures
      var token := EncodeGoPlanId(planId).value;
      && |token| == 43 && Free(token, '|') && Free(token, ':') && Free(token, '.')
      && DecodeGoPlanToken(token) == Some(GO_PREFIX + LowerCase(planId[|GO_PREFIX|..]))
  {
    hide ToBase64, FromBase64, TrimEquals, Plain, FromHex, ToHexLower;
    var hash := planId[|GO_PREFIX|..];
    var bytes := FromHex(hash);
    TrimmedBase64(bytes);
    var plain := TrimEquals(ToBase64(bytes));
    UrlInverse(plain);
    Base64RoundTrip(bytes);
    HexRoundTrip(hash);
  }

  lemma LowerHashUnchanged(planId: string)
    requires IsGoPlanId(planId)
    ensures LowerHash(planId) <==> GO_PREFIX + LowerCase(planId[|GO_PREFIX|..]) == planId
  {
    var hash := planId[|GO_PREFIX|..];
    assert planId == GO_PREFIX + hash;
    forall i | 0 <= i < |hash|
      ensures IsLowerHex(hash[i]) <==> LowerCase(hash)[i] == hash[i]
    {
      assert hash[i] == planId[|GO_PREFIX| + i];
      HexCharValue(hash[i]);
    }
    if LowerHash(planId) {
      forall i | 0 <= i < |hash|
        ensures LowerCase(hash)[i] == hash[i]
      {
        assert hash[i] == planId[|GO_PREFIX| + i];
      }
      assert LowerCase(hash) == hash;
    }
  }

  // ----- what the broker carries ------------------------------------------------------------------------

  datatype Owner = Owner(planId: string, thesisId: string, legId: string)

  /** `legacy` is the 24-digit hash token; its digest is not part of this model. */
  predicate IsLegacyToken(token: string) {
    |token| == 24 && forall i :: 0 <= i < 24 ==> IsLowerHex(token[i])
  }

  function PlanToken(planId: string, legacy: string): string {
    var go := EncodeGoPlanId(planId);
    if go.Some? then go.value else legacy
  }

  function FormatComment(planId: string, legId: string, legacy: string): string {
    "v8c|" + PlanToken(planId, legacy) + "|" + legId
  }

  predicate FitsPlain(planId: string, legId: string) { |planId| + |legId| + 1 <= 50 }

  function FormatClientOrderId(planId: string, legId: string, legacy: string): string {
    if FitsPlain(planId, legId) then planId + ":" + legId
    else
      var go := EncodeGoPlanId(planId);
      if go.Some? then "g" + go.value + "." + legId else "h" + legacy + "." + legId
  }

  function ParseComment(comment: string): Option<Owner> {
    if IsBlank(comment) then None
    else
      var parts := Split(comment, '|');
      var compactLeg := if |parts| == 3 && parts[0] == "v8c" then NormalizeLegId(parts[2]) else None;
      var compactPlan := if compactLeg.Some? then DecodeGoPlanToken(parts[1]) else None;
      if compactPlan.Some? then Some(Owner(compactPlan.value, "", compactLeg.value))
      else if |parts| < 3 || parts[0] != "v8" || IsBlank(parts[1]) || IsBlank(parts[2]) then None
      else if |parts| == 3 then Some(Owner(parts[1], parts[2], "L1"))
      else
        var leg := NormalizeLegId(parts[3]);
        if leg.Some? then Some(Owner(parts[1], parts[2], leg.value)) else None
  }

  function ParsePlain(id: string): Option<Owner> {
    var at := LastIndexOf(id, ':');
    if at <= 0 || at >= |id| - 1 || IsBlank(id[..at]) then None
    else
      var leg := NormalizeLegId(id[at + 1..]);
      if leg.Some? then Some(Owner(id[..at], "", leg.value)) else None
  }

  function ParseClientOrderId(id: string): Option<Owner> {
    if IsBlank(id) then None
    else if ParsePlain(id).Some? then ParsePlain(id)
    else
      var at := LastIndexOf(id, '.');
      if id[0] != 'g' || at <= 1 || at >= |id| - 1 then None
      else
        var leg := NormalizeLegId(id[at + 1..]);
        var plan := if leg.Some? then DecodeGoPlanToken(id[1..at]) else None;
        if plan.Some? then Some(Owner(plan.value, "", leg.value)) else None
  }

  function ParseOwnership(comment: string, clientOrderId: string): Option<Owner> {
    var fromComment := ParseComment(comment);
    if fromComment.Some? then fromComment else ParseClientOrderId(clientOrderId)
  }

  lemma CompactCommentParts(token: string, legId: string)
    requires Free(token, '|') && Free(legId, '|')
    ensures Split("v8c|" + token + "|" + legId, '|') == ["v8c", token, legId]
  {
    var comment := "v8c|" + token + "|" + legId;
    assert comment == "v8c" + ['|'] + (token + ['|'] + legId);
    assert Free("v8c", '|');
    SplitJoin("v8c", token + ['|'] + legId, '|');
    SplitJoin(token, legId, '|');
    SplitFree(legId, '|');
  }

  /** A Go plan's comment reads back as its leg and its id in lower case, so exactly the
      lower-case ids survive. */
  lemma GoCommentRoundTrip(planId: string, legId: string, legacy: string)
    requires IsGoPlanId(planId) && CanonicalLeg(legId)
    ensures ParseComment(FormatComment(planId, legId, legacy))
            == Some(Owner(GO_PREFIX + LowerCase(planId[|GO_PREFIX|..]), "", legId))
    ensures ParseComment(FormatComment(planId, legId, legacy)) == Some(Owner(planId, "", legId))
            <==> LowerHash(planId)
  {
    hide EncodeGoPlanId, DecodeGoPlanToken, NormalizeLegId, CanonicalLeg, Split, IsGoPlanId;
    EncodeDecode(planId);
    CanonicalIsFixed(legId);
    LowerHashUnchanged(planId);
    EncodesExactlyGo(planId);
    var token := EncodeGoPlanId(planId).value;
    CompactCommentParts(token, legId);
    var comment := FormatComment(planId, legId, legacy);
    assert comment[0] == 'v';
  }

  lemma EncodesExactlyGo(planId: string)
    ensures EncodeGoPlanId(planId).Some? <==> IsGoPlanId(planId)
  {}

  lemma GoClientOrderRoundTrip(planId: string, legId: string, legacy: string)
    requires IsGoPlanId(planId) && CanonicalLeg(legId)
    ensures ParseClientOrderId(FormatClientOrderId(planId, legId, legacy))
            == Some(Owner(GO_PREFIX + LowerCase(planId[|GO_PREFIX|..]), "", legId))
    ensures ParseClientOrderId(FormatClientOrderId(planId, legId, legacy)) == Some(Owner(planId, "", legId))
            <==> LowerHash(planId)
    ensures |legId| <= 5 ==> |FormatClientOrderId(planId, legId, legacy)| <= 50
  {
    hide EncodeGoPlanId, DecodeGoPlanToken, NormalizeLegId, CanonicalLeg, LastIndexOf, LowerHash;
    EncodesExactlyGo(planId);
    EncodeDecode(planId);
    CanonicalIsFixed(legId);
    LowerHashUnchanged(planId);
    var token := EncodeGoPlanId(planId).value;
    var id := "g" + token + "." + legId;
    assert |planId| == 74;
    assert id == FormatClientOrderId(planId, legId, legacy);
    assert id == ("g" + token) + ['.'] + legId;
    LastIndexJoin("g" + token, legId, '.');
    assert id[1..44] == token && id[45..] == legId;
    NoColon(token, legId);
    assert id[0] == 'g';
  }

  lemma NoColon(token: string, legId: string)
    requires Free(token, ':') && Free(legId, ':')
    ensures LastIndexOf("g" + token + "." + legId, ':') == -1
  {
    var id := "g" + token + "." + legId;
    assert Free(id, ':');
    var at := LastIndexOf(id, ':');
  }

  /** The short form reads back exactly, whatever the plan id contains. */
  lemma PlainRoundTrip(planId: string, legId: string, legacy: string)
    requires FitsPlain(planId, legId) && !IsBlank(planId) && CanonicalLeg(legId)
    ensures ParseClientOrderId(FormatClientOrderId(planId, legId, legacy)) == Some(Owner(planId, "", legId))
  {
    hide NormalizeLegId, CanonicalLeg, LastIndexOf, DecodeGoPlanToken;
    CanonicalIsFixed(legId);
    var id := planId + ":" + legId;
    assert id == planId + [':'] + legId;
    LastIndexJoin(planId, legId, ':');
    assert id[..|planId|] == planId && id[|planId| + 1..] == legId;
    var i :| 0 <= i < |planId| && !IsSpace(planId[i]);
    assert id[i] == planId[i];
  }

  /** Identities whose written form is exact. */
  predicate Writable(planId: string, legId: string) {
    && CanonicalLeg(legId)
    && ((IsGoPlanId(planId) && LowerHash(planId)) || (FitsPlain(planId, legId) && !IsBlank(planId)))
  }

  /** Both forms read back exactly, and so no two identities ever share a client order id. */
  lemma ClientOrderIdsNeverCollide(
    planA: string, legA: string, legacyA: string, planB: string, legB: string, legacyB: string)
    requires Writable(planA, legA) && Writable(planB, legB)
    requires FormatClientOrderId(planA, legA, legacyA) == FormatClientOrderId(planB, legB, legacyB)
    ensures planA == planB && legA == legB
  {
    hide FormatClientOrderId, ParseClientOrderId, CanonicalLeg, IsGoPlanId, LowerHash, FitsPlain, IsBlank;
    WritableRoundTrip(planA, legA, legacyA);
    WritableRoundTrip(planB, legB, legacyB);
  }

  lemma WritableRoundTrip(planId: string, legId: string, legacy: string)
    requires Writable(planId, legId)
    ensures ParseClientOrderId(FormatClientOrderId(planId, legId, legacy)) == Some(Owner(planId, "", legId))
  {
    hide FormatClientOrderId, ParseClientOrderId, CanonicalLeg, IsGoPlanId, LowerHash, FitsPlain, IsBlank;
    if IsGoPlanId(planId) && LowerHash(planId) {
      GoClientOrderRoundTrip(planId, legId, legacy);
    } else {
      PlainRoundTrip(planId, legId, legacy);
    }
  }

  /** A 24-digit legacy token is too short to be a Go plan, so a comment carrying one never
      names a plan by itself: ownership then comes from the client order id. */
  lemma LegacyTokenIsNoGoPlan(token: string, legId: string, clientOrderId: string)
    requires IsLegacyToken(token) && CanonicalLeg(legId)
    ensures DecodeGoPlanToken(token).None?
    ensures ParseOwnership("v8c|" + token + "|" + legId, clientOrderId) == ParseClientOrderId(clientOrderId)
  {
    hide NormalizeLegId, CanonicalLeg, Split, FromBase64;
    assert |Padded(UrlUnsafe(token))| == 24;
    CanonicalIsFixed(legId);
    assert Free(token, '|') by { LegacyFree(token); }
    CompactCommentParts(token, legId);
  }

  lemma LegacyFree(token: string)
    requires IsLegacyToken(token)
    ensures Free(token, '|')
  {}
}
