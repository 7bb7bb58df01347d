// IPv4 addresses in dotted decimal.
module IpAddress {
  import opened Words
  import opened Numerals
  import CConstants

  // ---------- tokens ----------

  // What strtok returns, and the text it goes on with.
  datatype Token = NoToken | Token(text: string, rest: string)

  function Span(s: string): (n: nat)
    ensures n <= |s| && '.' !in s[..n] && (n < |s| ==> s[n] == '.')
  {
    if s == "" || s[0] == '.' then 0 else
      var n := 1 + Span(s[1..]);
      assert s[..n] == [s[0]] + s[1..][..n - 1];
      n
  }

  function NextToken(s: string): (t: Token)
    ensures t.Token? ==> |t.rest| < |s|
  {
    if s == "" then NoToken
    else if s[0] == '.' then NextToken(s[1..])
    else Token(s[..Span(s)], s[Span(s)..])
  }

  predicate AllDots(s: string) {
    forall c :: c in s ==> c == '.'
  }

  // Some dots, then the longest run of other characters, then the rest.
  lemma {:induction false} NextTokenIsNextRun(s: string)
    ensures match NextToken(s)
            case NoToken => AllDots(s)
            case Token(text, rest) =>
              && text != "" && '.' !in text && (rest == "" || rest[0] == '.')
              && exists dots :: AllDots(dots) && s == dots + text + rest
  {
    hide AllDots, Span;
    NoDots();
    if s != "" && s[0] == '.' {
      NextTokenIsNextRun(s[1..]);
      DotBefore(s);
      var t := NextToken(s[1..]);
      if t.Token? {
        var dots :| AllDots(dots) && s[1..] == dots + t.text + t.rest;
        OneMoreDot(s, dots, t.text, t.rest);
      }
    } else if s != "" {
      RunFirst(s);
    }
  }

  lemma RunFirst(s: string)
    requires s != "" && s[0] != '.'
    ensures s[..Span(s)] != "" && s == "" + s[..Span(s)] + s[Span(s)..]
  {
  }

  lemma NoDots()
    ensures AllDots("")
  {
  }

  lemma DotBefore(s: string)
    requires s != "" && s[0] == '.'
    ensures AllDots(s) <==> AllDots(s[1..])
  {
    assert s == "." + s[1..];
    assert forall c :: c in s <==> c == '.' || c in s[1..];
  }

  lemma OneMoreDot(s: string, dots: string, text: string, rest: string)
    requires s != "" && s[0] == '.' && AllDots(dots) && s[1..] == dots + text + rest
    ensures AllDots("." + dots) && s == ("." + dots) + text + rest
  {
    assert s == "." + s[1..];
  }

  function Tokens(s: string): seq<string>
    decreases |s|
  {
    match NextToken(s)
    case NoToken => []
    case Token(text, rest) => [text] + Tokens(rest)
  }

  // Where a dot stands, another one changes nothing.
  lemma {:induction false} DotsCollapse(a: string, b: string)
    ensures Tokens(a + "." + "." + b) == Tokens(a + "." + b)
    decreases |a|
  {
    hide Tokens, NextToken, Span, AllDots;
    var x, y := "." + "." + b, "." + b;
    assert a + "." + "." + b == a + x && a + "." + b == a + y;
    if a == "" || a[0] == '.' {
      LeadingDot(a + x);
      LeadingDot(a + y);
      if a == "" {
        assert (a + x)[1..] == a + y;
      } else {
        assert (a + x)[1..] == a[1..] + "." + "." + b && (a + y)[1..] == a[1..] + "." + b;
        DotsCollapse(a[1..], b);
      }
    } else {
      var n := Span(a);
      assert a == a[..n] + a[n..];
      assert a[n..] + x == a[n..] + "." + "." + b && a[n..] + y == a[n..] + "." + b;
      LeadingRun(a[..n], a[n..] + x);
      LeadingRun(a[..n], a[n..] + y);
      assert a[..n] + (a[n..] + x) == a + x && a[..n] + (a[n..] + y) == a + y;
      DotsCollapse(a[n..], b);
    }
  }

  lemma LeadingDot(s: string)
    requires s != "" && s[0] == '.'
    ensures Tokens(s) == Tokens(s[1..])
  {
  }

  lemma LeadingRun(t: string, rest: string)
    requires t != "" && '.' !in t && (rest == "" || rest[0] == '.')
    ensures Tokens(t + rest) == [t] + Tokens(rest)
  {
    SpanOfToken(t, rest);
    assert (t + rest)[0] == t[0] && (t + rest)[..|t|] == t && (t + rest)[|t|..] == rest;
  }

  lemma {:induction false} SpanOfToken(t: string, rest: string)
    requires '.' !in t && (rest == "" || rest[0] == '.')
    ensures Span(t + rest) == |t|
  {
    if t != "" {
      SpanOfToken(t[1..], rest);
      assert (t + rest)[1..] == t[1..] + rest;
    }
  }

  // ---------- numbers ----------

  predicate IsSpace(c: char) {
    c == ' ' || '\t' as int <= c as int <= '\r' as int
  }

  function SkipSpaces(s: string): string {
    if s != "" && IsSpace(s[0]) then SkipSpaces(s[1..]) else s
  }

  function DecimalPrefix(s: string): (d: string)
    ensures forall c :: c in d ==> IsHexDigit(c)
  {
    s[..CConstants.RunEnd(s, 0, 10)]
  }

  // atoi, of a text short enough for strtol not to saturate.
  function Atoi(s: string): I32 {
    var t := SkipSpaces(s);
    var signed := t != "" && (t[0] == '-' || t[0] == '+');
    CConstants.Signed(t != "" && t[0] == '-', Horner(Values(DecimalPrefix(if signed then t[1..] else t)), 10))
  }

  // The token as an unsigned int.
  function Octet(token: string): nat {
    CConstants.ToU32(Atoi(token))
  }

  predicate IsOctet(token: string) {
    Octet(token) <= 0xff
  }

  function Octets(tokens: seq<string>): (o: seq<nat>)
    ensures |o| == |tokens| && forall i :: 0 <= i < |o| ==> o[i] == Octet(tokens[i])
  {
    seq(|tokens|, i requires 0 <= i < |tokens| => Octet(tokens[i]))
  }

  function Pow256(n: nat): nat {
    if n == 0 then 1 else 256 * Pow256(n - 1)
  }

  lemma {:induction false} HornerBelow(o: seq<nat>)
    requires forall i :: 0 <= i < |o| ==> o[i] < 256
    ensures Horner(o, 256) < Pow256(|o|)
  {
    if o != [] {
      HornerBelow(o[..|o| - 1]);
    }
  }

  // ---------- the parser ----------

  // The value of an address of four octets.
  function ParsedIp(s: string): Option<int> {
    var tokens := Tokens(s);
    if |s| <= 16 && |tokens| == 4 && forall t :: t in tokens ==> IsOctet(t) then Some(Horner(Octets(tokens), 256))
    else None
  }

  // opennsl_ip_parse; without a result the caller's value is left as it is.
  method IpParse(str: Option<string>) returns (ip: Option<int>)
    ensures ip == if str.None? then None else ParsedIp(str.value)
    ensures ip.Some? ==> 0 <= ip.value < TWO_32
  {
    hide Horner, Octet, Pow256, NextToken, Octets;
    if str.None? || |str.value| > 16 {
      return None;
    }
    ghost var all := Tokens(str.value);
    ghost var done: seq<string> := [];
    NoOctets();
    assert Octets(done) == [];
    var num, count := 0, 0;
    var tok := NextToken(str.value);
    while tok.Token?
      invariant all == done + (if tok.Token? then [tok.text] + Tokens(tok.rest) else [])
      invariant forall t :: t in done ==> IsOctet(t)
      invariant count == |done|
      invariant count <= 4 ==> num == Horner(Octets(done), 256) && num < Pow256(count)
      decreases if tok.Token? then |tok.rest| + 1 else 0
    {
      count := count + 1;
      var val := Octet(tok.text);
      if val > 0xff {
        assert tok.text in all;
        return None;
      }
      NextOctet(done, tok.text);
      num := CConstants.ToU32(num * 256 + val);
      done := done + [tok.text];
      tok := NextToken(tok.rest);
    }
    if count != 4 {
      return None;
    }
    assert all == done;
    Powers(4);
    return Some(num);
  }

  // After one more octet the accumulator is below 2^(8 * count).
  lemma NextOctet(done: seq<string>, token: string)
    requires (forall t :: t in done ==> IsOctet(t)) && IsOctet(token)
    ensures forall t :: t in done + [token] ==> IsOctet(t)
    ensures Horner(Octets(done + [token]), 256) == Horner(Octets(done), 256) * 256 + Octet(token) < Pow256(|done| + 1)
    ensures |done| < 4 ==> Pow256(|done| + 1) <= TWO_32
  {
    hide Octet, Horner, Pow256;
    var more := done + [token];
    forall i | 0 <= i < |more| ensures IsOctet(more[i]) {
      assert i < |done| ==> more[i] in done;
    }
    assert Octets(more) == Octets(done) + [Octet(token)];
    LastDigit(Octets(done), Octet(token), 256);
    HornerBelow(Octets(more));
    Powers(|done| + 1);
  }

  lemma Powers(n: nat)
    ensures n <= 4 ==> Pow256(n) <= TWO_32
  {
    assert Pow256(4) == TWO_32 && Pow256(3) == 0x100_0000 && Pow256(2) == 0x1_0000 && Pow256(1) == 256;
  }

  // An address is accepted if and only if it has at most 16 characters and four tokens that
  // read as 0 to 255, and then the first is its most significant octet.
  lemma AcceptedIff(s: string)
    ensures var tokens := Tokens(s);
            && (ParsedIp(s).Some? <==> |s| <= 16 && |tokens| == 4 && forall t :: t in tokens ==> 0 <= Atoi(t) <= 255)
            && (ParsedIp(s).Some? ==>
                  ParsedIp(s).value == ((Atoi(tokens[0]) * 256 + Atoi(tokens[1])) * 256 + Atoi(tokens[2])) * 256 + Atoi(tokens[3]))
  {
    hide Horner, Octet, Atoi, Tokens;
    var tokens := Tokens(s);
    forall t ensures IsOctet(t) <==> 0 <= Atoi(t) <= 255 {
      OctetIff(t);
    }
    if ParsedIp(s).Some? {
      forall k | 0 <= k < 4 ensures Octet(tokens[k]) == Atoi(tokens[k]) {
        assert tokens[k] in tokens;
        OctetIff(tokens[k]);
      }
      FourDigits(Octets(tokens));
    }
  }

  lemma OctetIff(token: string)
    ensures IsOctet(token) <==> 0 <= Atoi(token) <= 255
    ensures IsOctet(token) ==> Octet(token) == Atoi(token)
  {
    hide Atoi;
    UnsignedOctet(Atoi(token));
  }

  lemma UnsignedOctet(x: I32)
    ensures CConstants.ToU32(x) <= 255 <==> 0 <= x <= 255
    ensures 0 <= x ==> CConstants.ToU32(x) == x
  {
  }

  lemma FourDigits(o: seq<nat>)
    requires |o| == 4
    ensures Horner(o, 256) == ((o[0] * 256 + o[1]) * 256 + o[2]) * 256 + o[3]
  {
    hide Horner;
    assert o == ((([] + [o[0]]) + [o[1]]) + [o[2]]) + [o[3]];
    NoOctets();
    LastDigit([], o[0], 256);
    LastDigit([] + [o[0]], o[1], 256);
    LastDigit(([] + [o[0]]) + [o[1]], o[2], 256);
    LastDigit((([] + [o[0]]) + [o[1]]) + [o[2]], o[3], 256);
  }

  predicate IsSign(sign: string) {
    sign == "" || sign == "+" || sign == "-"
  }

  // What atoi reads: white space, a sign, digits, and no more.
  lemma {:induction false} AtoiReads(spaces: string, sign: string, n: nat, rest: string)
    requires forall c :: c in spaces ==> c as int == 32 || 9 <= c as int <= 13
    requires IsSign(sign) && (rest == "" || !('0' <= rest[0] <= '9'))
    ensures var m: int := n; Atoi(spaces + (sign + (Rendered(n, 10) + rest))) == ToI32(if sign == "-" then -m else m)
    decreases |spaces|
  {
    hide Atoi, Rendered, IsSign;
    var text := sign + (Rendered(n, 10) + rest);
    if spaces == "" {
      AtoiOfSigned(sign, n, rest);
      assert spaces + text == text;
    } else {
      assert spaces[0] in spaces && forall c :: c in spaces[1..] ==> c in spaces;
      AtoiReads(spaces[1..], sign, n, rest);
      SpaceSkipped(spaces[0], spaces[1..] + text);
      assert spaces + text == [spaces[0]] + (spaces[1..] + text);
    }
  }

  lemma SpaceSkipped(c: char, s: string)
    requires IsSpace(c)
    ensures Atoi([c] + s) == Atoi(s)
  {
    hide Horner, DecimalPrefix;
    assert ([c] + s)[1..] == s;
  }

  lemma AtoiOfSigned(sign: string, n: nat, rest: string)
    requires IsSign(sign) && (rest == "" || !('0' <= rest[0] <= '9'))
    ensures var m: int := n; Atoi(sign + (Rendered(n, 10) + rest)) == ToI32(if sign == "-" then -m else m)
  {
    hide Horner, Rendered, Digits, CConstants.RunEnd, Atoi, IsSign;
    var t := Rendered(n, 10);
    RenderedValue(n, 10);
    assert t[0] in t && (t + rest)[0] == t[0];
    AtoiOfDigits(sign, t + rest);
    DigitsOnly(t, rest, 0);
    assert DecimalPrefix(t + rest) == t;
  }

  lemma AtoiOfDigits(sign: string, y: string)
    requires IsSign(sign) && y != "" && '0' <= y[0] <= '9'
    ensures Atoi(sign + y) == CConstants.Signed(sign == "-", Horner(Values(DecimalPrefix(y)), 10))
  {
    hide Horner, DecimalPrefix, Values, CConstants.Signed;
    if sign == "" {
      assert sign + y == y;
    } else {
      assert (sign + y)[1..] == y && (sign + y)[0] == sign[0];
    }
  }

  lemma {:induction false} DigitsOnly(t: string, rest: string, i: nat)
    requires i <= |t| && (forall c :: c in t ==> IsHexDigit(c) && DigitValue(c) < 10) && (rest == "" || !('0' <= rest[0] <= '9'))
    ensures CConstants.RunEnd(t + rest, i, 10) == |t|
    decreases |t| - i
  {
    if i < |t| {
      assert (t + rest)[i] == t[i] && t[i] in t;
      DigitsOnly(t, rest, i + 1);
    } else {
      assert rest != "" ==> (t + rest)[i] == rest[0];
    }
  }

  // ---------- the printer ----------

  function Dotted(o: seq<nat>): string
    requires |o| >= 1
  {
    if |o| == 1 then Rendered(o[0], 10) else Rendered(o[0], 10) + "." + Dotted(o[1..])
  }

  function OctetsOf(host: int): (o: seq<nat>)
    requires 0 <= host < TWO_32
    ensures |o| == 4 && forall i :: 0 <= i < 4 ==> o[i] < 256
  {
    [host / 0x100_0000 % 256, host / 0x1_0000 % 256, host / 0x100 % 256, host % 256]
  }

  // print_ip_addr
  function PrintedIp(host: int): string
    requires 0 <= host < TWO_32
  {
    Dotted(OctetsOf(host))
  }

  lemma Shifts(host: int)
    requires 0 <= host < TWO_32
    ensures host == host / 0x100 * 256 + host % 256
    ensures host / 0x100 == host / 0x1_0000 * 256 + host / 0x100 % 256
    ensures host / 0x1_0000 == host / 0x100_0000 * 256 + host / 0x1_0000 % 256
    ensures host / 0x100_0000 % 256 == host / 0x100_0000
  {
  }

  lemma OctetsOfValue(host: int)
    requires 0 <= host < TWO_32
    ensures Horner(OctetsOf(host), 256) == host
  {
    hide Horner;
    Shifts(host);
    FourDigits(OctetsOf(host));
  }

  lemma NoOctets()
    ensures Horner([], 256) == 0 < Pow256(0)
  {
  }

  lemma RenderedIsToken(n: nat)
    ensures '.' !in Rendered(n, 10) && Rendered(n, 10) != "" && (n < 256 ==> Octet(Rendered(n, 10)) == n)
  {
    hide Horner, Rendered, Digits, CConstants.RunEnd;
    var t := Rendered(n, 10);
    RenderedValue(n, 10);
    assert t[0] in t;
    CConstants.AllAccepted(t, 0, 10);
    assert DecimalPrefix(t) == t;
    assert SkipSpaces(t) == t;
  }

  lemma {:induction false} TokensOfDotted(o: seq<nat>)
    requires |o| >= 1
    ensures |Tokens(Dotted(o))| == |o| && forall i :: 0 <= i < |o| ==> Tokens(Dotted(o))[i] == Rendered(o[i], 10)
  {
    hide Rendered, NextToken;
    var t := Rendered(o[0], 10);
    RenderedIsToken(o[0]);
    var rest := if |o| == 1 then "" else "." + Dotted(o[1..]);
    LeadingRun(t, rest);
    assert t + rest == Dotted(o);
    if |o| > 1 {
      TokensOfDotted(o[1..]);
      LeadingDot(rest);
      assert rest[1..] == Dotted(o[1..]);
    }
  }

  lemma ShortDigits(n: nat)
    requires n < 256
    ensures |Digits(n, 10)| <= 3
  {
    assert n / 10 / 10 < 10;
    assert |Digits(n / 10 / 10, 10)| == 1;
    assert |Digits(n / 10, 10)| <= 2;
  }

  lemma {:induction false} DottedLength(o: seq<nat>)
    requires |o| >= 1 && forall i :: 0 <= i < |o| ==> o[i] < 256
    ensures |Dotted(o)| <= 4 * |o| - 1
  {
    ShortDigits(o[0]);
    if |o| > 1 {
      DottedLength(o[1..]);
    }
  }

  // Every address comes back from its printed form.
  lemma PrintedParses(host: int)
    requires 0 <= host < TWO_32
    ensures ParsedIp(PrintedIp(host)) == Some(host)
  {
    var o := OctetsOf(host);
    var tokens := Tokens(Dotted(o));
    TokensOfDotted(o);
    DottedLength(o);
    hide Horner, OctetsOf, Octet, Rendered, Tokens, Dotted, TWO_32;
    forall i | 0 <= i < 4 ensures Octet(tokens[i]) == o[i] {
      RenderedIsToken(o[i]);
    }
    assert Octets(tokens) == o;
    OctetsOfValue(host);
  }
}
