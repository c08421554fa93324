/** The trunk "Allowed VLANs" text of the settings dialog: printer and parser
    (src/app/VmSettingsDialog.xaml.cpp). */
module VlanLists {
  import opened Wrappers

  const MAX_VLAN: nat := 4094

  predicate IsVlan(x: int) {
    1 <= x <= MAX_VLAN
  }

  ghost predicate AllVlans(ids: seq<nat>) {
    forall x | x in ids :: IsVlan(x)
  }

  // ---- numbers as text -------------------------------------------------------

  predicate IsDigit(c: char) {
    '0' <= c <= '9'
  }

  function DigitValue(c: char): nat
    requires IsDigit(c)
  {
    c as int - '0' as int
  }

  function Digit(n: nat): (c: char)
    requires n < 10
    ensures IsDigit(c) && DigitValue(c) == n
  {
    '0' + n as char
  }

  predicate AllDigits(s: string) {
    forall i | 0 <= i < |s| :: IsDigit(s[i])
  }

  /** std::to_wstring. */
  function Decimal(n: nat): (s: string)
    ensures s != "" && AllDigits(s)
  {
    if n < 10 then [Digit(n)] else Decimal(n / 10) + [Digit(n % 10)]
  }

  function Number(s: string): nat
    requires AllDigits(s)
  {
    if s == "" then 0 else 10 * Number(s[..|s| - 1]) + DigitValue(s[|s| - 1])
  }

  lemma {:induction false} NumberDecimal(n: nat)
    ensures Number(Decimal(n)) == n
  {
    if n < 10 {
      assert Decimal(n)[..0] == "";
    } else {
      NumberDecimal(n / 10);
      assert Decimal(n)[..|Decimal(n)| - 1] == Decimal(n / 10);
    }
  }

  predicate IsSpace(c: char) {
    c in {' ', '\t', '\n', '\r', 11 as char, 12 as char}
  }

  function SkipSpace(s: string): string {
    if s != "" && IsSpace(s[0]) then SkipSpace(s[1..]) else s
  }

  /** How many digits lead. */
  function Leading(s: string): (n: nat)
    ensures n <= |s| && AllDigits(s[..n])
  {
    if s != "" && IsDigit(s[0]) then
      var m := Leading(s[1..]);
      assert s[..1 + m] == [s[0]] + s[1..][..m];
      1 + m
    else 0
  }

  function Sign(s: string): int {
    if s != "" && s[0] == '-' then -1 else 1
  }

  function AfterSign(s: string): string {
    if s != "" && (s[0] == '-' || s[0] == '+') then s[1..] else s
  }

  /** std::stoi: None where it throws. What follows the digits is ignored. */
  function Stoi(s: string): (r: Option<int>)
    ensures r.Some? ==> -0x8000_0000 <= r.value < 0x8000_0000
  {
    var u := SkipSpace(s);
    var digits := AfterSign(u);
    var n := Leading(digits);
    if n == 0 then None
    else
      var v := Sign(u) * Number(digits[..n]);
      if -0x8000_0000 <= v < 0x8000_0000 then Some(v) else None
  }

  lemma {:induction false} LeadingAll(s: string)
    requires AllDigits(s)
    ensures Leading(s) == |s|
  {
    if s != "" { LeadingAll(s[1..]); }
  }

  lemma StoiDecimal(n: nat)
    requires n < 0x8000_0000
    ensures Stoi(Decimal(n)) == Some(n)
  {
    var s := Decimal(n);
    assert IsDigit(s[0]);
    LeadingAll(s);
    NumberDecimal(n);
    assert s[..|s|] == s;
  }

  // ---- the printer -----------------------------------------------------------

  function Format(ids: seq<nat>): string {
    if ids == [] then ""
    else if |ids| == 1 then Decimal(ids[0])
    else Decimal(ids[0]) + "," + Format(ids[1..])
  }

  lemma {:induction false} FormatAppend(ids: seq<nat>, x: nat)
    ensures Format(ids + [x]) == if ids == [] then Decimal(x) else Format(ids) + "," + Decimal(x)
  {
    if ids == [] {
    } else if |ids| == 1 {
      assert (ids + [x])[1..] == [x];
    } else {
      FormatAppend(ids[1..], x);
      assert (ids + [x])[1..] == ids[1..] + [x];
    }
  }

  method FormatVlanList(ids: seq<nat>) returns (s: string)
    ensures s == Format(ids)
  {
    s := "";
    var i := 0;
    while i < |ids|
      invariant 0 <= i <= |ids| && s == Format(ids[..i])
    {
      FormatAppend(ids[..i], ids[i]);
      assert ids[..i + 1] == ids[..i] + [ids[i]];
      if i != 0 { s := s + ","; }
      s := s + Decimal(ids[i]);
      i := i + 1;
    }
    assert ids[..i] == ids;
  }

  // ---- the parser ------------------------------------------------------------

  predicate IsBlank(c: char) {
    c == ' ' || c == '\t'
  }

  function TrimLeft(s: string): string {
    if s != "" && IsBlank(s[0]) then TrimLeft(s[1..]) else s
  }

  function TrimRight(s: string): string {
    if s != "" && IsBlank(s[|s| - 1]) then TrimRight(s[..|s| - 1]) else s
  }

  /** The first dash, or the length. */
  function Dash(s: string): (d: nat)
    ensures d <= |s| && (d < |s| ==> s[d] == '-') && forall i | 0 <= i < d :: s[i] != '-'
  {
    if s == "" || s[0] == '-' then 0 else 1 + Dash(s[1..])
  }

  /** The VLANs from `lo` up to `hi`. */
  function Span(lo: int, hi: int): seq<nat>
    decreases hi - lo
  {
    if lo > hi then [] else (if IsVlan(lo) then [lo] else []) + Span(lo + 1, hi)
  }

  function TokenIds(tok: string): seq<nat> {
    var t := TrimRight(TrimLeft(tok));
    if t == "" then []
    else
      var d := Dash(t);
      if d < |t| then
        match (Stoi(t[..d]), Stoi(t[d + 1..]))
        case (Some(a), Some(b)) => if a > b then Span(b, a) else Span(a, b)
        case _ => []
      else match Stoi(t)
           case Some(x) => if IsVlan(x) then [x] else []
           case None => []
  }

  predicate IsSeparator(c: char) {
    c == ',' || c == ';'
  }

  function ParseFrom(tok: string, text: string): seq<nat>
    decreases |text|
  {
    if text == "" then TokenIds(tok)
    else if IsSeparator(text[0]) then TokenIds(tok) + ParseFrom("", text[1..])
    else ParseFrom(tok + [text[0]], text[1..])
  }

  function Parse(text: string): seq<nat> {
    ParseFrom("", text)
  }

  lemma {:induction false} SpanAppend(lo: int, hi: int)
    requires lo <= hi
    ensures Span(lo, hi) == Span(lo, hi - 1) + if IsVlan(hi) then [hi] else []
    decreases hi - lo
  {
    hide IsVlan;
    var last := if IsVlan(hi) then [hi] else [];
    if lo < hi {
      SpanAppend(lo + 1, hi);
      var first := if IsVlan(lo) then [lo] else [];
      assert first + (Span(lo + 1, hi - 1) + last) == first + Span(lo + 1, hi - 1) + last;
    } else {
      assert Span(lo, hi) == last + Span(lo + 1, hi);
    }
  }

  /** One token, as the parser's `flush` treats it. */
  method Flush(tok: string) returns (ids: seq<nat>)
    ensures ids == TokenIds(tok)
  {
    hide Stoi, TrimLeft, TrimRight;
    ids := [];
    var t := TrimRight(TrimLeft(tok));
    if t == "" { return; }
    var dash := Dash(t);
    if dash < |t| {
      var a, b := Stoi(t[..dash]), Stoi(t[dash + 1..]);
      if a.None? || b.None? { return; }
      var lo, hi := a.value, b.value;
      if lo > hi { lo, hi := hi, lo; }
      var x := lo;
      while x <= hi
        invariant lo <= x <= hi + 1 && ids == Span(lo, x - 1)
      {
        SpanAppend(lo, x);
        if IsVlan(x) { ids := ids + [x]; }
        x := x + 1;
      }
    } else {
      var x := Stoi(t);
      if x.Some? && IsVlan(x.value) { ids := [x.value]; }
    }
  }

  method ParseVlanList(text: string) returns (ids: seq<nat>)
    ensures ids == Parse(text)
  {
    hide TokenIds;
    ids := [];
    var tok := "";
    var i := 0;
    assert text[i..] == text;
    while i < |text|
      invariant 0 <= i <= |text| && Parse(text) == ids + ParseFrom(tok, text[i..])
    {
      if IsSeparator(text[i]) {
        var more := Flush(tok);
        assert ids + (more + ParseFrom("", text[i + 1..])) == ids + more + ParseFrom("", text[i + 1..]);
        ids := ids + more;
        tok := "";
      } else {
        tok := tok + [text[i]];
      }
      assert text[i..][1..] == text[i + 1..];
      i := i + 1;
    }
    assert text[i..] == "";
    var more := Flush(tok);
    ids := ids + more;
  }

  // ---- laws ------------------------------------------------------------------

  lemma {:induction false} SpanVlans(lo: int, hi: int)
    ensures AllVlans(Span(lo, hi))
    decreases hi - lo
  {
    if lo <= hi { SpanVlans(lo + 1, hi); }
  }

  /** Whatever is typed, what comes out are VLAN ids. */
  lemma {:induction false} ParseFromVlans(tok: string, text: string)
    ensures AllVlans(ParseFrom(tok, text))
    decreases |text|
  {
    forall lo, hi { SpanVlans(lo, hi); }
    if text != "" {
      if IsSeparator(text[0]) { ParseFromVlans("", text[1..]); } else { ParseFromVlans(tok + [text[0]], text[1..]); }
    }
  }

  lemma ParseVlans(text: string)
    ensures AllVlans(Parse(text))
  {
    ParseFromVlans("", text);
  }

  /** The id a single number stands for. */
  function Kept(x: nat): seq<nat> {
    if IsVlan(x) then [x] else []
  }

  lemma DecimalToken(x: nat)
    requires x < 0x8000_0000
    ensures TokenIds(Decimal(x)) == Kept(x)
  {
    var s := Decimal(x);
    assert IsDigit(s[0]) && IsDigit(s[|s| - 1]);
    assert TrimRight(TrimLeft(s)) == s;
    StoiDecimal(x);
  }

  lemma {:induction false} ParseSkip(tok: string, a: string, rest: string)
    requires forall i | 0 <= i < |a| :: !IsSeparator(a[i])
    ensures ParseFrom(tok, a + rest) == ParseFrom(tok + a, rest)
    decreases |a|
  {
    if a == "" {
      assert a + rest == rest && tok + a == tok;
    } else {
      ParseSkip(tok + [a[0]], a[1..], rest);
      assert (a + rest)[1..] == a[1..] + rest;
      assert tok + [a[0]] + a[1..] == tok + a;
    }
  }

  function KeptAll(ids: seq<nat>): seq<nat> {
    if ids == [] then [] else Kept(ids[0]) + KeptAll(ids[1..])
  }

  /** A separator keeps what stands before it from what follows. */
  lemma {:induction false} ParseFromConcat(tok: string, p: string, sep: char, q: string)
    requires IsSeparator(sep)
    ensures ParseFrom(tok, p + [sep] + q) == ParseFrom(tok, p) + Parse(q)
    decreases |p|
  {
    hide TokenIds;
    var text := p + [sep] + q;
    if p == "" {
      assert text[1..] == q;
    } else {
      assert text[0] == p[0] && text[1..] == p[1..] + [sep] + q;
      if IsSeparator(p[0]) {
        ParseFromConcat("", p[1..], sep, q);
      } else {
        ParseFromConcat(tok + [p[0]], p[1..], sep, q);
      }
    }
  }

  lemma ParseConcat(p: string, sep: char, q: string)
    requires sep == ',' || sep == ';'
    ensures Parse(p + [sep] + q) == Parse(p) + Parse(q)
  {
    ParseFromConcat("", p, sep, q);
  }

  predicate NoDigits(s: string) {
    forall i | 0 <= i < |s| :: !IsDigit(s[i])
  }

  lemma {:induction false} SkipNoDigits(s: string)
    requires NoDigits(s)
    ensures NoDigits(SkipSpace(s)) && Stoi(s).None?
  {
    if s != "" && IsSpace(s[0]) { SkipNoDigits(s[1..]); }
  }

  lemma {:induction false} TrimLeftNoDigits(s: string)
    requires NoDigits(s)
    ensures NoDigits(TrimLeft(s))
  {
    if s != "" { TrimLeftNoDigits(s[1..]); }
  }

  lemma {:induction false} TrimRightNoDigits(s: string)
    requires NoDigits(s)
    ensures NoDigits(TrimRight(s))
  {
    if s != "" { TrimRightNoDigits(s[..|s| - 1]); }
  }

  lemma JunkToken(tok: string)
    requires NoDigits(tok)
    ensures TokenIds(tok) == []
  {
    TrimLeftNoDigits(tok);
    TrimRightNoDigits(TrimLeft(tok));
    var t := TrimRight(TrimLeft(tok));
    SkipNoDigits(t);
    SkipNoDigits(t[..Dash(t)]);
  }

  lemma {:induction false} JunkFrom(tok: string, text: string)
    requires NoDigits(tok) && NoDigits(text)
    ensures ParseFrom(tok, text) == []
    decreases |text|
  {
    JunkToken(tok);
    if text != "" {
      if IsSeparator(text[0]) { JunkFrom("", text[1..]); } else { JunkFrom(tok + [text[0]], text[1..]); }
    }
  }

  /** Text without a digit, between two separators, changes nothing. */
  lemma JunkChangesNothing(p: string, sep: char, junk: string, sep': char, q: string)
    requires (sep == ',' || sep == ';') && (sep' == ',' || sep' == ';') && NoDigits(junk)
    ensures Parse(p + [sep] + junk + [sep'] + q) == Parse(p + [sep] + q)
  {
    JunkFrom("", junk);
    ParseConcat(p + [sep] + junk, sep', q);
    ParseConcat(p, sep, junk);
    ParseConcat(p, sep, q);
  }

  // ---- ranges ----------------------------------------------------------------

  predicate Ascending(ids: seq<nat>) {
    forall i, j | 0 <= i < j < |ids| :: ids[i] < ids[j]
  }

  lemma {:induction false} SpanMembers(lo: int, hi: int)
    ensures forall x :: x in Span(lo, hi) <==> IsVlan(x) && lo <= x <= hi
    decreases hi - lo
  {
    if lo <= hi { SpanMembers(lo + 1, hi); }
  }

  lemma {:induction false} SpanAscends(lo: int, hi: int)
    ensures Ascending(Span(lo, hi))
    decreases hi - lo
  {
    if lo <= hi {
      SpanAscends(lo + 1, hi);
      SpanMembers(lo + 1, hi);
      var rest := Span(lo + 1, hi);
      assert forall i | 0 <= i < |rest| :: rest[i] in rest;
    }
  }

  lemma Untrimmed(s: string)
    requires s != "" && !IsBlank(s[0]) && !IsBlank(s[|s| - 1])
    ensures TrimRight(TrimLeft(s)) == s
  {}

  lemma TwoParts(x: string, y: string)
    requires x != "" && y != "" && AllDigits(x) && AllDigits(y)
    ensures var s := x + "-" + y;
            TrimRight(TrimLeft(s)) == s && Dash(s) == |x| && s[..|x|] == x && s[|x| + 1..] == y
  {
    var s := x + "-" + y;
    assert s[0] == x[0] && s[|s| - 1] == y[|y| - 1];
    assert IsDigit(x[0]) && IsDigit(y[|y| - 1]);
    Untrimmed(s);
    assert s[|x|] == '-' && forall i | 0 <= i < |x| :: s[i] == x[i] && IsDigit(x[i]);
    hide AllDigits, TrimLeft, TrimRight;
    assert s[..|x|] == x && s[|x| + 1..] == y;
  }

  lemma PairToken(tok: string, a: int, b: int)
    requires TrimRight(TrimLeft(tok)) == tok && Dash(tok) < |tok|
    requires Stoi(tok[..Dash(tok)]) == Some(a) && Stoi(tok[Dash(tok) + 1..]) == Some(b)
    ensures TokenIds(tok) == if a > b then Span(b, a) else Span(a, b)
  {
    hide Stoi, TrimLeft, TrimRight, Dash, Span;
  }

  lemma RangeToken(a: nat, b: nat)
    requires a < 0x8000_0000 && b < 0x8000_0000
    ensures TokenIds(Decimal(a) + "-" + Decimal(b)) == if a > b then Span(b, a) else Span(a, b)
  {
    hide Decimal, Stoi, TrimLeft, TrimRight, Dash, Span, AllDigits, TokenIds;
    StoiDecimal(a);
    StoiDecimal(b);
    TwoParts(Decimal(a), Decimal(b));
    PairToken(Decimal(a) + "-" + Decimal(b), a, b);
  }

  // ---- numbers ---------------------------------------------------------------

  /** No comma, semicolon or dash. */
  predicate OnePiece(s: string) {
    forall i | 0 <= i < |s| :: s[i] != ',' && s[i] != ';' && s[i] != '-'
  }

  lemma {:induction false} LeadingAppend(s: string, tail: string)
    requires AllDigits(s) && (tail != "" ==> !IsDigit(tail[0]))
    ensures Leading(s + tail) == |s|
  {
    if s == "" {
      assert s + tail == tail;
    } else {
      assert (s + tail)[1..] == s[1..] + tail;
      LeadingAppend(s[1..], tail);
    }
  }

  /** White space as the C library sees it. */
  predicate IsWhite(c: char) {
    c == ' ' || 9 <= c as int <= 13
  }

  lemma {:induction false} SkipWhite(lead: string, s: string)
    requires (forall i | 0 <= i < |lead| :: IsWhite(lead[i])) && s != "" && !IsWhite(s[0])
    ensures SkipSpace(lead + s) == s
  {
    if lead == "" {
      assert lead + s == s;
    } else {
      assert (lead + s)[1..] == lead[1..] + s;
      SkipWhite(lead[1..], s);
    }
  }

  lemma StoiPlain(u: string, digits: string, plus: string, n: nat, m: nat)
    requires n < 0x8000_0000 && (plus == "" || plus == "+") && digits != "" && IsDigit(digits[0])
    requires SkipSpace(u) == plus + digits && Leading(digits) == m > 0 && Number(digits[..m]) == n
    ensures Stoi(u) == Some(n)
  {
    assert plus == "" ==> plus + digits == digits;
    assert plus == "+" ==> (plus + digits)[0] == '+' && (plus + digits)[1..] == digits;
    hide SkipSpace, Leading, Number;
    assert AfterSign(plus + digits) == digits && Sign(plus + digits) == 1;
  }

  lemma StoiLeads(lead: string, plus: string, n: nat, tail: string)
    requires n < 0x8000_0000 && (plus == "" || plus == "+") && (tail != "" ==> !IsDigit(tail[0]))
    requires forall i | 0 <= i < |lead| :: IsWhite(lead[i])
    ensures Stoi(lead + (plus + Decimal(n) + tail)) == Some(n)
  {
    var s := Decimal(n);
    var digits := s + tail;
    assert IsDigit(s[0]) && !IsWhite(s[0]);
    LeadingAppend(s, tail);
    NumberDecimal(n);
    hide Stoi, SkipSpace, Leading, Number, Decimal;
    assert plus + s + tail == plus + digits;
    SkipWhite(lead, plus + digits);
    assert digits[..|s|] == s;
    StoiPlain(lead + (plus + digits), digits, plus, n, |s|);
  }

  predicate SkipsTo(lead: string, s: string, k: nat) {
    k <= |lead| && TrimLeft(lead + s) == lead[k..] + s
  }

  predicate CutsTo(s: string, tail: string, n: nat) {
    n <= |tail| && TrimRight(s + tail) == s + tail[..n]
  }

  lemma {:induction false} TrimLeftSkips(lead: string, s: string) returns (k: nat)
    requires s != "" && !IsBlank(s[0])
    ensures SkipsTo(lead, s, k)
  {
    if lead != "" && IsBlank(lead[0]) {
      assert (lead + s)[1..] == lead[1..] + s;
      var j := TrimLeftSkips(lead[1..], s);
      assert lead[1..][j..] == lead[j + 1..];
      k := j + 1;
    } else {
      assert lead[0..] == lead;
      assert lead == "" ==> lead + s == s;
      k := 0;
    }
  }

  lemma {:induction false} TrimRightCuts(s: string, tail: string) returns (n: nat)
    requires s != "" && !IsBlank(s[|s| - 1])
    ensures CutsTo(s, tail, n)
  {
    if tail != "" && IsBlank(tail[|tail| - 1]) {
      assert (s + tail)[..|s + tail| - 1] == s + tail[..|tail| - 1];
      n := TrimRightCuts(s, tail[..|tail| - 1]);
      assert tail[..|tail| - 1][..n] == tail[..n];
    } else {
      assert tail[..|tail|] == tail;
      assert tail == "" ==> s + tail == s;
      n := |tail|;
    }
  }

  lemma Trimmed(lead: string, s: string, tail: string) returns (k: nat, n: nat)
    requires s != "" && !IsBlank(s[0]) && !IsBlank(s[|s| - 1])
    ensures k <= |lead| && n <= |tail| && TrimRight(TrimLeft(lead + s + tail)) == TrimmedTo(lead, s, tail, k, n)
  {
    hide TrimLeft, TrimRight, IsBlank;
    assert lead + s + tail == lead + (s + tail);
    k := TrimLeftSkips(lead, s + tail);
    assert lead[k..] + (s + tail) == lead[k..] + s + tail;
    n := TrimRightCuts(lead[k..] + s, tail);
    assert lead[k..] + s + tail[..n] == lead[k..] + (s + tail[..n]);
  }

  function TrimmedTo(lead: string, s: string, tail: string, k: nat, n: nat): string
    requires k <= |lead| && n <= |tail|
  {
    lead[k..] + (s + tail[..n])
  }

  /** A number with white space before it, a plus sign or none, and anything but digits,
      commas, semicolons and dashes after it is that VLAN id, if it is one. */
  lemma NumberParses(lead: string, plus: string, n: nat, tail: string)
    requires n < 0x8000_0000 && (plus == "" || plus == "+")
    requires OnePiece(tail) && (tail != "" ==> !IsDigit(tail[0]))
    requires forall i | 0 <= i < |lead| :: IsWhite(lead[i])
    ensures Parse(lead + (plus + Decimal(n)) + tail) == if 1 <= n <= 4094 then [n] else []
  {
    var s := plus + Decimal(n);
    var tok := lead + s + tail;
    assert IsDigit(Decimal(n)[0]) && IsDigit(s[|s| - 1]);
    assert forall i | 0 <= i < |Decimal(n)| :: IsDigit(Decimal(n)[i]);
    var k, m := Trimmed(lead, s, tail);
    assert forall i | 0 <= i < |tok| :: !IsSeparator(tok[i]);
    hide Decimal, TrimLeft, TrimRight, Parse, TokenIds, IsSeparator;
    NumberToken(tok, lead[k..], plus, n, tail[..m]);
    ParseOne(tok, "");
  }

  lemma NumberToken(tok: string, lead: string, plus: string, n: nat, tail: string)
    requires n < 0x8000_0000 && (plus == "" || plus == "+")
    requires OnePiece(tail) && (tail != "" ==> !IsDigit(tail[0])) && forall i | 0 <= i < |lead| :: IsWhite(lead[i])
    requires TrimRight(TrimLeft(tok)) == lead + (plus + Decimal(n) + tail)
    ensures TokenIds(tok) == if IsVlan(n) then [n] else []
  {
    var t := lead + (plus + Decimal(n) + tail);
    StoiLeads(lead, plus, n, tail);
    assert forall i | 0 <= i < |Decimal(n)| :: IsDigit(Decimal(n)[i]);
    hide Stoi, TrimLeft, TrimRight, Decimal;
    assert forall i | 0 <= i < |t| :: t[i] != '-';
  }

  /** A range, either way round, stands for the VLAN ids from the smaller number up to the
      larger, in ascending order. */
  lemma RangeParses(a: nat, b: nat)
    requires a < 0x8000_0000 && b < 0x8000_0000
    ensures var r := Parse(Decimal(a) + "-" + Decimal(b));
            && Ascending(r)
            && forall x :: x in r <==> 1 <= x <= 4094 && (a <= x <= b || b <= x <= a)
  {
    var s := Decimal(a) + "-" + Decimal(b);
    RangeToken(a, b);
    hide TokenIds;
    ParseOne(s, "");
    SpanMembers(a, b);
    SpanMembers(b, a);
    SpanAscends(a, b);
    SpanAscends(b, a);
  }

  /** The text up to a comma is one token. */
  lemma ParseOne(s: string, rest: string)
    requires forall i | 0 <= i < |s| :: !IsSeparator(s[i])
    ensures Parse(s) == TokenIds(s)
    ensures Parse(s + "," + rest) == TokenIds(s) + Parse(rest)
  {
    assert "" + s == s && s + "" == s;
    ParseSkip("", s, "");
    ParseSkip("", s, "," + rest);
    assert s + "," + rest == s + ("," + rest);
    assert ("," + rest)[1..] == rest;
  }

  /** Reading what was printed drops what is no VLAN id and keeps the rest in order. */
  lemma {:induction false} ParseFormat(ids: seq<nat>)
    requires forall x | x in ids :: x < 0x1_0000
    ensures Parse(Format(ids)) == KeptAll(ids)
  {
    if ids != [] {
      hide Parse, TokenIds;
      var s, rest := Decimal(ids[0]), Format(ids[1..]);
      assert ids[0] in ids;
      DecimalToken(ids[0]);
      ParseOne(s, rest);
      if |ids| > 1 {
        assert forall x | x in ids[1..] :: x in ids;
        ParseFormat(ids[1..]);
      }
    }
  }

  lemma {:induction false} KeptAllSame(ids: seq<nat>)
    ensures |KeptAll(ids)| <= |ids|
    ensures KeptAll(ids) == ids <==> AllVlans(ids)
  {
    if ids != [] {
      KeptAllSame(ids[1..]);
      if IsVlan(ids[0]) {
        assert KeptAll(ids)[1..] == KeptAll(ids[1..]);
        assert KeptAll(ids) == ids <==> KeptAll(ids[1..]) == ids[1..];
        assert ids == [ids[0]] + ids[1..];
      }
    }
  }

  /** The list survives printing and reading if and only if all of it are VLAN ids. */
  lemma FormatRoundTrip(ids: seq<nat>)
    requires forall x | x in ids :: x < 0x1_0000
    ensures Parse(Format(ids)) == ids <==> AllVlans(ids)
  {
    ParseFormat(ids);
    KeptAllSame(ids);
  }

  /** Reading any text, printing that and reading it again changes nothing more. */
  lemma ParseStable(text: string)
    ensures Parse(Format(Parse(text))) == Parse(text)
  {
    ParseVlans(text);
    FormatRoundTrip(Parse(text));
  }

  /** No number is printed with a leading zero. */
  lemma {:induction false} DecimalCanonical(n: nat)
    ensures Decimal(n)[0] == '0' <==> n == 0
    ensures n == 0 ==> Decimal(n) == "0"
  {
    if n >= 10 { DecimalCanonical(n / 10); }
  }
}
