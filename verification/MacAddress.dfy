// MAC addresses as text, read from the last character backwards.
module MacAddress {
  import opened Words
  import opened Numerals

  const MAC_ADDR_LEN: nat := 17

  predicate Legible(c: char) {
    IsHexDigit(c) || c == ':'
  }

  function Nibble(c: char): (d: nat)
    requires Legible(c)
    ensures d < 16
  {
    if c == ':' then 0 else DigitValue(c)
  }

  // The text that is scanned.
  function Body(buf: string): string {
    if |buf| >= 2 && buf[0] == '0' && (buf[1] == 'x' || buf[1] == 'X') then buf[2..] else buf
  }

  // A byte read backwards from position `s`, and where the scan stands then: before the start
  // of the text, or on the colon that ends the next group.
  datatype Group = Illegible | Group(byte: U8, rest: int)

  function ReadGroup(t: string, s: nat): (g: Group)
    requires s <= |t|
    ensures g.Group? ==> -1 <= g.rest <= s && (g.rest < s || s == 0)
  {
    if s == 0 then Group(0, -1)
    else if !Legible(t[s - 1]) then Illegible
    else if t[s - 1] == ':' || s == 1 then
      var rest := if t[s - 1] == ':' then s - 1 else -1;
      Group(Nibble(t[s - 1]), if rest > 0 && t[rest - 1] == ':' then rest - 1 else rest)
    else if !Legible(t[s - 2]) then Illegible
    else
      var rest := s - 2;
      Group(Nibble(t[s - 2]) * 16 + Nibble(t[s - 1]), if rest > 0 && t[rest - 1] == ':' then rest - 1 else rest)
  }

  // The bytes `0..i` that the scan from `s` stores; an illegible group leaves the rest alone.
  datatype Scan = Scan(ok: bool, mac: seq<U8>)

  function ScanFrom(t: string, s: int, i: int, mac: seq<U8>): (r: Scan)
    requires |mac| == 6 && -1 <= s <= |t| && -1 <= i < 6
    ensures |r.mac| == 6
    decreases i + 1
  {
    if i < 0 || s < 0 then Scan(true, mac)
    else
      match ReadGroup(t, s)
      case Illegible => Scan(false, mac)
      case Group(byte, rest) => ScanFrom(t, rest, i - 1, mac[i := byte])
  }

  const ZERO: seq<U8> := [0, 0, 0, 0, 0, 0]

  function Parsed(buf: string): Scan {
    if |buf| > MAC_ADDR_LEN then Scan(false, ZERO)
    else ScanFrom(Body(buf), |Body(buf)|, 5, ZERO)
  }

  // opennsl_mac_parse
  method MacParse(str: Option<string>, macp: array<U8>) returns (ok: bool)
    requires macp.Length == 6
    modifies macp
    ensures str.None? ==> !ok && macp[..] == ZERO
    ensures str.Some? ==> Scan(ok, macp[..]) == Parsed(str.value)
  {
    macp[0], macp[1], macp[2] := 0, 0, 0;
    macp[3], macp[4], macp[5] := 0, 0, 0;
    assert macp[..] == ZERO;
    if str.None? || |str.value| > MAC_ADDR_LEN {
      return false;
    }
    var buf := str.value;
    if |buf| >= 2 && buf[0] == '0' && (buf[1] == 'x' || buf[1] == 'X') {
      buf := buf[2..];
    }
    assert buf == Body(str.value);
    hide ReadGroup, Body;
    var s, i := |buf|, 5;
    while i >= 0 && s >= 0
      invariant -1 <= i < 6 && -1 <= s <= |buf|
      invariant ScanFrom(buf, s, i, macp[..]) == Parsed(str.value)
    {
      var g := NextGroup(buf, s);
      if g.Illegible? {
        return false;
      }
      ghost var before := macp[..];
      macp[i] := g.byte;
      assert macp[..] == before[i := g.byte];
      s, i := g.rest, i - 1;
    }
    return true;
  }

  // One turn of the scan. The cursor can end up before the start of the text, where it reads
  // nothing that matters.
  method NextGroup(buf: string, start: nat) returns (g: Group)
    requires start <= |buf|
    ensures g == ReadGroup(buf, start)
  {
    var c1, c2 := 0, 0;
    var s := start - 1;
    if s >= 0 {
      if !Legible(buf[s]) {
        return Illegible;
      }
      c2 := Nibble(buf[s]);
    }
    if s >= 0 && buf[s] != ':' {
      s := s - 1;
      if s >= 0 {
        if !Legible(buf[s]) {
          return Illegible;
        }
        c1 := Nibble(buf[s]);
      }
    }
    if s > 0 && buf[s - 1] == ':' {
      s := s - 1;
    }
    return Group(c1 * 16 + c2, s);
  }

  // A short text of digits and colons is never refused, however its groups are arranged.
  lemma {:induction false} LegibleIsAccepted(t: string, s: int, i: int, mac: seq<U8>)
    requires |mac| == 6 && -1 <= s <= |t| && -1 <= i < 6 && forall c :: c in t ==> Legible(c)
    ensures ScanFrom(t, s, i, mac).ok
    decreases i + 1
  {
    if i >= 0 && s >= 0 {
      var g := ReadGroup(t, s);
      LegibleIsAccepted(t, g.rest, i - 1, mac[i := g.byte]);
    }
  }

  // So such a text is refused only for its length, the prefix included.
  lemma LegibleAcceptedIff(buf: string)
    requires forall c :: c in Body(buf) ==> Legible(c)
    ensures Parsed(buf).ok <==> |buf| <= 17
    ensures |buf| > 17 ==> Parsed(buf).mac == [0, 0, 0, 0, 0, 0]
  {
    LegibleIsAccepted(Body(buf), |Body(buf)|, 5, ZERO);
  }

  // Every group takes a character at least, so the scan reaches the last `i + 1` of them.
  lemma {:induction false} IllegibleIsReached(t: string, s: int, i: int, mac: seq<U8>, k: nat)
    requires |mac| == 6 && k < s <= |t| && -1 <= i < 6 && s <= k + i + 1 && !Legible(t[k])
    ensures !ScanFrom(t, s, i, mac).ok
    decreases i + 1
  {
    var g := ReadGroup(t, s);
    if g.Group? {
      IllegibleIsReached(t, g.rest, i - 1, mac[i := g.byte], k);
    }
  }

  // Any other character among the last six makes it fail.
  lemma IllegibleIsRefused(buf: string, k: nat)
    requires k < |Body(buf)| <= k + 6 && !Legible(Body(buf)[k])
    ensures !Parsed(buf).ok
  {
    IllegibleIsReached(Body(buf), |Body(buf)|, 5, ZERO, k);
  }

  // A leading 0x or 0X does not count.
  lemma PrefixIsDropped(t: string, x: char)
    requires |t| <= 15 && x in ['x', 'X'] && !(|t| >= 2 && t[0] == '0' && t[1] in ['x', 'X'])
    ensures Parsed("0" + [x] + t) == Parsed(t)
  {
    assert Body("0" + [x] + t) == t == Body(t);
  }

  // ---------- the colon form, read forwards ----------

  // One more character: a colon begins a new part.
  function Extended(parts: seq<string>, c: char): (more: seq<string>)
    requires |parts| >= 1
    ensures |more| >= 1
  {
    if c == ':' then parts + [""]
    else parts[..|parts| - 1] + [parts[|parts| - 1] + [c]]
  }

  // The parts of a text between its colons.
  function Split(t: string): (parts: seq<string>)
    ensures |parts| >= 1
  {
    if t == "" then [""] else Extended(Split(t[..|t| - 1]), t[|t| - 1])
  }

  function Joined(parts: seq<string>): string
    requires |parts| >= 1
  {
    var n := |parts| - 1;
    if n == 0 then parts[0] else Joined(parts[..n]) + ":" + parts[n]
  }

  lemma {:induction false} JoinedSplit(t: string)
    ensures Joined(Split(t)) == t
  {
    hide Joined, Extended;
    if t == "" {
      JoinedOne("");
    } else {
      var n := |t| - 1;
      JoinedSplit(t[..n]);
      JoinedExtended(Split(t[..n]), t[n]);
      assert t == t[..n] + [t[n]];
    }
  }

  lemma JoinedExtended(parts: seq<string>, c: char)
    requires |parts| >= 1
    ensures Joined(Extended(parts, c)) == Joined(parts) + [c]
  {
    hide Joined;
    if c == ':' {
      JoinedMore(parts, "");
    } else {
      JoinedLonger(parts, c);
    }
  }

  lemma JoinedOne(g: string)
    ensures Joined([g]) == g
  {
  }

  lemma JoinedMore(parts: seq<string>, g: string)
    requires |parts| >= 1
    ensures Joined(parts + [g]) == Joined(parts) + ":" + g
  {
    assert (parts + [g])[..|parts|] == parts;
  }

  lemma JoinedLonger(parts: seq<string>, c: char)
    requires |parts| >= 1
    ensures var m := |parts| - 1; Joined(parts[..m] + [parts[m] + [c]]) == Joined(parts) + [c]
  {
    var m := |parts| - 1;
    var more := parts[..m] + [parts[m] + [c]];
    assert more[..m] == parts[..m] && more[m] == parts[m] + [c];
    if m > 0 {
      assert Joined(more) == Joined(parts[..m]) + ":" + (parts[m] + [c]);
    }
  }

  // One or two hexadecimal digits.
  predicate IsGroup(g: string) {
    1 <= |g| <= 2 && forall c :: c in g ==> IsHexDigit(c)
  }

  function GroupValue(g: string): (b: U8)
    requires IsGroup(g)
  {
    if |g| == 1 then DigitValue(g[0]) else DigitValue(g[0]) * 16 + DigitValue(g[1])
  }

  predicate IsColonForm(t: string) {
    |Split(t)| == 6 && forall g :: g in Split(t) ==> IsGroup(g)
  }

  lemma {:induction false} JoinedLength(parts: seq<string>)
    requires |parts| >= 1 && forall g :: g in parts ==> IsGroup(g)
    ensures 2 * |parts| - 1 <= |Joined(parts)| <= 3 * |parts| - 1
  {
    assert parts[|parts| - 1] in parts;
    if |parts| > 1 {
      JoinedLength(parts[..|parts| - 1]);
    }
  }

  // The last group of a text is what the scan reads first.
  lemma LastGroup(t: string, head: string, g: string)
    requires IsGroup(g) && head != "" && head[|head| - 1] != ':'
    requires |head| + 1 + |g| <= |t| && t[..|head| + 1 + |g|] == head + ":" + g
    ensures ReadGroup(t, |head| + 1 + |g|) == Group(GroupValue(g), |head|)
  {
    var s, p := |head| + 1 + |g|, head + ":" + g;
    assert t[s - 1] == p[s - 1] == g[|g| - 1];
    assert t[|head|] == p[|head|] == ':';
    assert t[|head| - 1] == p[|head| - 1];
    if |g| == 2 {
      assert t[s - 2] == p[s - 2] == g[0];
    }
  }

  lemma FirstGroup(t: string, g: string)
    requires IsGroup(g) && |g| <= |t| && t[..|g|] == g
    ensures ReadGroup(t, |g|).Group? && ReadGroup(t, |g|).byte == GroupValue(g)
  {
    var n := |g|;
    assert t[..n][0] == t[0] && t[..n][n - 1] == t[n - 1];
    assert t[0] == g[0] && t[n - 1] == g[n - 1] && g[0] in g && g[n - 1] in g;
  }

  lemma {:induction false} EndsInDigit(parts: seq<string>)
    requires |parts| >= 1 && forall g :: g in parts ==> IsGroup(g)
    ensures var j := Joined(parts);
            && j != "" && IsHexDigit(j[0]) && IsHexDigit(j[|j| - 1])
            && (|j| >= 2 ==> j[1] == ':' || IsHexDigit(j[1]))
  {
    var n := |parts| - 1;
    var j, g := Joined(parts), parts[n];
    assert g in parts;
    assert j[|j| - 1] == g[|g| - 1];
    if n > 0 {
      var head := Joined(parts[..n]);
      EndsInDigit(parts[..n]);
      assert j == head + ":" + g;
      assert j[0] == head[0] && j[1] == if |head| == 1 then ':' else head[1];
    }
  }

  // The scan stores the groups of a joined text in their places.
  lemma {:induction false} ScanReadsGroups(t: string, parts: seq<string>, mac: seq<U8>)
    requires 1 <= |parts| <= 6 && |mac| == 6 && forall g :: g in parts ==> IsGroup(g)
    requires |Joined(parts)| <= |t| && t[..|Joined(parts)|] == Joined(parts)
    ensures var r := ScanFrom(t, |Joined(parts)|, |parts| - 1, mac);
            r.ok && forall k :: 0 <= k < 6 ==> r.mac[k] == if k < |parts| then GroupValue(parts[k]) else mac[k]
    decreases |parts|
  {
    hide ReadGroup, IsGroup, GroupValue;
    var n := |parts| - 1;
    var g, s := parts[n], |Joined(parts)|;
    assert g in parts;
    if n == 0 {
      FirstGroup(t, g);
    } else {
      var head := Joined(parts[..n]);
      EndsInDigit(parts[..n]);
      LastGroup(t, head, g);
      assert t[..|head|] == t[..s][..|head|] == head;
      ScanReadsGroups(t, parts[..n], mac[n := GroupValue(g)]);
    }
  }

  // Six groups of one or two digits: read backwards, the first still gives the first byte.
  lemma BackwardIsForward(t: string)
    requires IsColonForm(t)
    ensures Parsed(t).ok && forall i :: 0 <= i < 6 ==> Parsed(t).mac[i] == GroupValue(Split(t)[i])
  {
    var parts := Split(t);
    JoinedSplit(t);
    JoinedLength(parts);
    EndsInDigit(parts);
    assert Body(t) == t;
    assert t[..|t|] == t;
    ScanReadsGroups(t, parts, ZERO);
  }

  // ---------- the printer ----------

  function Hex2(b: U8): (g: string)
    ensures IsGroup(g) && GroupValue(g) == b
  {
    [DigitChar(b / 16), DigitChar(b % 16)]
  }

  // l2_print_mac
  function Printed(mac: seq<U8>): string
    requires |mac| == 6
  {
    Joined(seq(6, i requires 0 <= i < 6 => Hex2(mac[i])))
  }

  lemma {:induction false} SplitOff(head: string, g: string)
    requires ':' !in g
    ensures Split(head + ":" + g) == Split(head) + [g]
  {
    var t := head + ":" + g;
    var n := |t| - 1;
    if g == "" {
      assert t[..n] == head;
    } else {
      var m := |g| - 1;
      SplitOff(head, g[..m]);
      assert t[..n] == head + ":" + g[..m];
      assert g == g[..m] + [g[m]];
    }
  }

  lemma {:induction false} SplitOne(g: string)
    requires ':' !in g
    ensures Split(g) == [g]
  {
    if g != "" {
      var m := |g| - 1;
      SplitOne(g[..m]);
      assert g == g[..m] + [g[m]];
    }
  }

  lemma {:induction false} SplitJoined(parts: seq<string>)
    requires |parts| >= 1 && forall g :: g in parts ==> ':' !in g
    ensures Split(Joined(parts)) == parts
  {
    var n := |parts| - 1;
    assert parts[n] in parts;
    if n == 0 {
      SplitOne(parts[0]);
    } else {
      SplitJoined(parts[..n]);
      SplitOff(Joined(parts[..n]), parts[n]);
    }
  }

  lemma PrintedParses(mac: seq<U8>)
    requires |mac| == 6
    ensures Parsed(Printed(mac)) == Scan(true, mac)
  {
    var parts := seq(6, i requires 0 <= i < 6 => Hex2(mac[i]));
    SplitJoined(parts);
    BackwardIsForward(Printed(mac));
    assert Parsed(Printed(mac)).mac == mac;
  }

  // ---------- plain digits ----------

  lemma ReadPair(t: string, n: nat)
    requires 1 <= n && 2 * n <= |t| && forall k :: 0 <= k < 2 * n ==> IsHexDigit(t[k])
    ensures ReadGroup(t, 2 * n) == Group(DigitValue(t[2 * n - 2]) * 16 + DigitValue(t[2 * n - 1]), 2 * n - 2)
  {
    assert t[2 * n - 1] != ':' && t[2 * n - 2] != ':';
    assert n > 1 ==> t[2 * n - 3] != ':';
  }

  // Up to twelve digits without colons fill the address from its last byte.
  lemma {:induction false} ScanReadsPairs(t: string, n: nat, mac: seq<U8>)
    requires n <= 6 && |mac| == 6 && 2 * n <= |t| && (n > 0 ==> forall k :: 0 <= k < 2 * n ==> IsHexDigit(t[k]))
    ensures var r := ScanFrom(t, 2 * n, n - 1, mac);
            r.ok && forall k :: 0 <= k < 6 ==>
              r.mac[k] == if k < n then DigitValue(t[2 * k]) * 16 + DigitValue(t[2 * k + 1]) else mac[k]
  {
    hide ReadGroup;
    if n > 0 {
      ReadPair(t, n);
      ScanReadsPairs(t, n - 1, mac[n - 1 := DigitValue(t[2 * n - 2]) * 16 + DigitValue(t[2 * n - 1])]);
    }
  }

  // The twelve digits of an address.
  ghost predicate Writes(digits: string, mac: seq<U8>)
    requires |mac| == 6 && |digits| == 12
  {
    forall k :: 0 <= k < 6 ==> digits[2 * k..2 * k + 2] == Hex2(mac[k])
  }

  lemma WrittenPair(digits: string, mac: seq<U8>, k: nat)
    requires |mac| == 6 && |digits| == 12 && Writes(digits, mac) && k < 6
    ensures IsHexDigit(digits[2 * k]) && IsHexDigit(digits[2 * k + 1])
    ensures DigitValue(digits[2 * k]) * 16 + DigitValue(digits[2 * k + 1]) == mac[k]
  {
    var pair := digits[2 * k..2 * k + 2];
    assert pair == Hex2(mac[k]) && digits[2 * k] == pair[0] && digits[2 * k + 1] == pair[1];
  }

  lemma PlainHexParses(digits: string, mac: seq<U8>)
    requires |mac| == 6 && |digits| == 12 && Writes(digits, mac)
    ensures Parsed("0x" + digits) == Scan(true, mac) == Parsed(digits)
  {
    hide Writes, ScanFrom, Hex2;
    forall k | 0 <= k < 12 ensures IsHexDigit(digits[k]) {
      WrittenPair(digits, mac, k / 2);
    }
    forall k | 0 <= k < 6 ensures DigitValue(digits[2 * k]) * 16 + DigitValue(digits[2 * k + 1]) == mac[k] {
      WrittenPair(digits, mac, k);
    }
    assert Body(digits) == digits == Body("0x" + digits) by {
      assert IsHexDigit(digits[1]);
    }
    ScanReadsPairs(digits, 6, ZERO);
    assert ScanFrom(digits, 12, 5, ZERO).mac == mac;
  }
}
