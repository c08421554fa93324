/** A network adapter's VLAN and MAC rows in the settings dialog: loading the controls from
    what is stored, and what Save makes of them (src/app/VmSettingsDialog.xaml.cpp). */
module NicSettings {
  import opened Wrappers
  import opened VlanLists

  // ---- MAC addresses ---------------------------------------------------------

  predicate IsUpperHex(c: char) {
    '0' <= c <= '9' || 'A' <= c <= 'F'
  }

  predicate IsHex(c: char) {
    IsUpperHex(c) || 'a' <= c <= 'f'
  }

  function Upper(c: char): char {
    if 'a' <= c <= 'z' then c - 'a' + 'A' else c
  }

  predicate UpperHex(s: string) {
    forall i | 0 <= i < |s| :: IsUpperHex(s[i])
  }

  /** The hex digits of the text, upper-cased. */
  function Normalize(s: string): (r: string)
    ensures UpperHex(r)
  {
    if s == "" then "" else (if IsHex(s[0]) then [Upper(s[0])] else "") + Normalize(s[1..])
  }

  /** The first `n` characters, with a colon after every second but the twelfth. */
  function Colons(s: string, n: nat): string
    requires n <= |s|
  {
    if n == 0 then "" else Colons(s, n - 1) + [s[n - 1]] + if n % 2 == 0 && n != 12 then ":" else ""
  }

  /** What the dialog shows: twelve characters get their colons, anything else is left. */
  function FormatMac(raw: string): string {
    if |raw| == 12 then Colons(raw, 12) else raw
  }

  method NormalizeMac(text: string) returns (mac: string)
    ensures mac == Normalize(text)
  {
    mac := "";
    var i := 0;
    while i < |text|
      invariant 0 <= i <= |text| && Normalize(text) == mac + Normalize(text[i..])
    {
      if IsHex(text[i]) { mac := mac + [Upper(text[i])]; }
      i := i + 1;
    }
  }

  method FormatMacForDialog(raw: string) returns (out: string)
    ensures out == FormatMac(raw)
  {
    if |raw| != 12 { return raw; }
    out := "";
    var i := 0;
    while i < 12
      invariant 0 <= i <= 12 && out == Colons(raw, i)
    {
      out := out + [raw[i]];
      if i % 2 == 1 && i != 11 { out := out + ":"; }
      i := i + 1;
    }
  }

  lemma {:induction false} NormalizeConcat(a: string, b: string)
    ensures Normalize(a + b) == Normalize(a) + Normalize(b)
  {
    hide IsHex, Upper;
    if a == "" {
      assert a + b == b;
    } else {
      assert (a + b)[0] == a[0] && (a + b)[1..] == a[1..] + b;
      NormalizeConcat(a[1..], b);
    }
  }

  /** Colons come and go without a trace. */
  lemma {:induction false} NormalizeColons(s: string, n: nat)
    requires n <= |s|
    ensures Normalize(Colons(s, n)) == Normalize(s[..n])
  {
    if n > 0 {
      NormalizeColons(s, n - 1);
      var colon := if n % 2 == 0 && n != 12 then ":" else "";
      assert Normalize(colon) == "";
      NormalizeConcat(Colons(s, n - 1) + [s[n - 1]], colon);
      NormalizeConcat(Colons(s, n - 1), [s[n - 1]]);
      NormalizeConcat(s[..n - 1], [s[n - 1]]);
      assert s[..n] == s[..n - 1] + [s[n - 1]];
    }
  }

  lemma {:induction false} NormalizeSame(s: string)
    ensures Normalize(s) == s <==> UpperHex(s)
    ensures |Normalize(s)| <= |s|
  {
    if s != "" {
      NormalizeSame(s[1..]);
      assert s == [s[0]] + s[1..];
      if IsHex(s[0]) {
        assert Normalize(s)[1..] == Normalize(s[1..]);
        assert UpperHex(s) <==> IsUpperHex(s[0]) && UpperHex(s[1..]);
      }
    }
  }

  /** What is shown reads back as what is stored if and only if that is upper-case hex; its
      length does not matter. */
  lemma MacRoundTrip(raw: string)
    ensures Normalize(FormatMac(raw)) == raw <==> UpperHex(raw)
  {
    if |raw| == 12 {
      NormalizeColons(raw, 12);
      assert raw[..12] == raw;
    }
    NormalizeSame(raw);
  }

  lemma {:induction false} ColonsAt(s: string, n: nat, k: nat)
    requires n <= |s| && n <= 12 && k < n
    ensures |Colons(s, n)| == n + (if n < 12 then n / 2 else 5)
    ensures Colons(s, n)[k + k / 2] == s[k]
    ensures k % 2 == 1 && k < 11 ==> Colons(s, n)[k + k / 2 + 1] == ':'
  {
    if n > 1 { ColonsAt(s, n - 1, if k < n - 1 then k else 0); }
  }

  /** Twelve characters are shown in pairs with colons between them, anything else as it is. */
  lemma ShownInPairs(raw: string, k: nat)
    requires k < |raw|
    ensures |raw| != 12 ==> FormatMac(raw) == raw
    ensures |raw| == 12 ==>
              && |FormatMac(raw)| == 17 && FormatMac(raw)[k + k / 2] == raw[k]
              && (k % 2 == 1 && k < 11 ==> FormatMac(raw)[k + k / 2 + 1] == ':')
  {
    if |raw| == 12 { ColonsAt(raw, 12, k); }
  }

  // ---- what a text says as hex digits -------------------------------------------

  const UPPER := "0123456789ABCDEF"
  const LOWER := "0123456789abcdef"

  predicate IsDigitIn(c: char) {
    c in UPPER || c in LOWER
  }

  /** `u` is the upper-case digit that `c` stands for. */
  ghost predicate StandsFor(c: char, u: char) {
    exists v | 0 <= v < 16 :: UPPER[v] == u && (UPPER[v] == c || LOWER[v] == c)
  }

  /** Places in a text, in order, that are all of those with a hex digit. */
  ghost predicate DigitPlaces(text: string, places: seq<nat>) {
    && Ascending(places)
    && forall i :: i in places <==> 0 <= i < |text| && IsDigitIn(text[i])
  }

  /** `digits` are the hex digits of the text, in order, in upper case. */
  ghost predicate SpellsAt(text: string, digits: string, places: seq<nat>) {
    && DigitPlaces(text, places) && |digits| == |places|
    && forall k | 0 <= k < |places| :: 0 <= places[k] < |text| && StandsFor(text[places[k]], digits[k])
  }

  ghost predicate Spells(text: string, digits: string) {
    exists places :: SpellsAt(text, digits, places)
  }

  lemma HexChars(c: char)
    ensures IsHex(c) <==> IsDigitIn(c)
    ensures forall u :: IsHex(c) ==> (StandsFor(c, u) <==> u == Upper(c))
  {
    if IsHex(c) {
      var v := if '0' <= c <= '9' then c as int - '0' as int
      else if 'A' <= c <= 'F' then c as int - 'A' as int + 10 else c as int - 'a' as int + 10;
      assert UPPER[v] == Upper(c) && (UPPER[v] == c || LOWER[v] == c);
    }
    forall v, w | 0 <= v < 16 && 0 <= w < 16 && (UPPER[v] == UPPER[w] || LOWER[v] == LOWER[w]) ensures v == w {}
  }

  function Members(s: seq<nat>): set<nat> {
    set x | x in s
  }

  lemma FrontOf(a: seq<nat>)
    requires Ascending(a) && a != []
    ensures var last := a[|a| - 1];
            && Ascending(a[..|a| - 1]) && Members(a[..|a| - 1]) == Members(a) - {last}
            && last in Members(a) && forall x | x in Members(a) :: x <= last
  {
    assert a == a[..|a| - 1] + [a[|a| - 1]];
  }

  lemma {:induction false} SamePlaces(a: seq<nat>, b: seq<nat>)
    requires Ascending(a) && Ascending(b) && Members(a) == Members(b)
    ensures a == b
  {
    if a != [] && b != [] {
      FrontOf(a);
      FrontOf(b);
      hide Ascending, Members;
      SamePlaces(a[..|a| - 1], b[..|b| - 1]);
      assert a == a[..|a| - 1] + [a[|a| - 1]] && b == b[..|b| - 1] + [b[|b| - 1]];
    } else {
      NoMembers(a);
      NoMembers(b);
    }
  }

  lemma NoMembers(s: seq<nat>)
    ensures Members(s) == {} <==> s == []
  {
    assert s != [] ==> s[0] in Members(s);
  }

  lemma PlacesMore(front: string, c: char, p: seq<nat>)
    requires DigitPlaces(front, p)
    ensures DigitPlaces(front + [c], if IsDigitIn(c) then p + [|front|] else p)
  {
    assert forall i | i in p :: i < |front|;
    assert forall k | 0 <= k < |p| :: p[k] in p;
    hide IsDigitIn;
  }

  lemma SpellsMore(front: string, digits: string, c: char, p: seq<nat>)
    requires SpellsAt(front, digits, p)
    ensures SpellsAt(front + [c], digits + (if IsHex(c) then [Upper(c)] else ""),
                     if IsHex(c) then p + [|front|] else p)
  {
    HexChars(c);
    PlacesMore(front, c, p);
    hide DigitPlaces, StandsFor, IsHex, Upper;
  }

  lemma NormalizeMore(front: string, c: char)
    ensures Normalize(front + [c]) == Normalize(front) + if IsHex(c) then [Upper(c)] else ""
  {
    NormalizeConcat(front, [c]);
    assert Normalize([c]) == if IsHex(c) then [Upper(c)] else "";
  }

  lemma OneMoreSpelt(front: string, c: char)
    requires Spells(front, Normalize(front))
    ensures Spells(front + [c], Normalize(front + [c]))
  {
    hide SpellsAt, IsHex, Upper, Normalize;
    var p :| SpellsAt(front, Normalize(front), p);
    NormalizeMore(front, c);
    SpellsMore(front, Normalize(front), c, p);
  }

  /** Reading a text finds its hex digits. */
  lemma {:induction false} NormalizeSpells(text: string)
    ensures Spells(text, Normalize(text))
  {
    if text == "" {
      assert SpellsAt("", "", []);
    } else {
      hide Spells, Normalize;
      var front, c := text[..|text| - 1], text[|text| - 1];
      NormalizeSpells(front);
      OneMoreSpelt(front, c);
      assert text == front + [c];
    }
  }

  lemma SpellsOnce(text: string, a: string, b: string)
    requires Spells(text, a) && Spells(text, b)
    ensures a == b
  {
    var p :| SpellsAt(text, a, p);
    var q :| SpellsAt(text, b, q);
    assert Members(p) == Members(q);
    SamePlaces(p, q);
    forall k | 0 <= k < |a| ensures a[k] == b[k] {
      assert p[k] in p;
      HexChars(text[p[k]]);
    }
  }

  /** What is read is exactly what the text spells, whatever else it holds. */
  lemma NormalizeExactly(text: string, digits: string)
    ensures Spells(text, digits) <==> digits == Normalize(text)
  {
    NormalizeSpells(text);
    if Spells(text, digits) { SpellsOnce(text, digits, Normalize(text)); }
  }

  datatype Saved<T> = Unchanged | Rejected | Changed(config: T)

  datatype Mac = Mac(isDynamic: bool, address: string)

  /** The MAC part of Save, for the dynamic check box and the text box. */
  function SaveMac(stored: Mac, isDynamic: bool, text: string): Saved<Mac> {
    var address := Normalize(text);
    if isDynamic == stored.isDynamic && (isDynamic || address == stored.address) then Unchanged
    else if !isDynamic && |address| != 12 then Rejected
    else Changed(Mac(isDynamic, address))
  }

  /** Opening the dialog and saving untouched. */
  lemma MacFixpoint(stored: Mac)
    ensures SaveMac(stored, stored.isDynamic, FormatMac(stored.address)) == Unchanged
       <==> stored.isDynamic || UpperHex(stored.address)
  {
    MacRoundTrip(stored.address);
  }

  /** A static address that is written is twelve upper-case hex digits, and what was written
      is not written again. */
  lemma MacWritten(stored: Mac, isDynamic: bool, text: string)
    requires SaveMac(stored, isDynamic, text).Changed?
    ensures var mac := SaveMac(stored, isDynamic, text).config;
            && (!mac.isDynamic ==> |mac.address| == 12)
            && UpperHex(mac.address)
            && SaveMac(mac, isDynamic, text) == Unchanged
            && SaveMac(mac, mac.isDynamic, FormatMac(mac.address)) == Unchanged
  {
    MacFixpoint(SaveMac(stored, isDynamic, text).config);
  }

  /** The adapter's MAC once Save is through. */
  function StoredMac(stored: Mac, r: Saved<Mac>): Mac {
    if r.Changed? then r.config else stored
  }

  /** Save stores the edit: the check box, and for a static address the hex digits of the
      text. It refuses exactly a static address that differs from what is stored and has not
      twelve digits, and it writes exactly when what is stored would change. */
  lemma MacSaved(stored: Mac, isDynamic: bool, text: string, digits: string)
    requires Spells(text, digits)
    ensures var r := SaveMac(stored, isDynamic, text);
            var after := StoredMac(stored, r);
            && (r.Rejected? <==>
                !isDynamic && |digits| != 12 && (stored.isDynamic || stored.address != digits))
            && (!r.Rejected? ==> after.isDynamic == isDynamic && (!isDynamic ==> after.address == digits))
            && (r.Unchanged? <==>
                stored.isDynamic == isDynamic && (isDynamic || stored.address == digits))
            && (r.Changed? ==> r.config.address == digits)
  {
    NormalizeExactly(text, digits);
  }

  // ---- VLANs -----------------------------------------------------------------

  /** What is stored: 16-bit ids, an 8-bit private mode. */
  datatype Stored = Stored(
    mode: nat,
    vlanId: nat,
    nativeVlanId: nat,
    trunkList: seq<nat>,
    primaryVlanId: nat,
    secondaryVlanId: nat,
    pvlanMode: nat)

  predicate Fits16(s: Stored) {
    && s.mode < 0x1_0000 && s.vlanId < 0x1_0000 && s.nativeVlanId < 0x1_0000
    && s.primaryVlanId < 0x1_0000 && s.secondaryVlanId < 0x1_0000 && s.pvlanMode < 0x100
    && forall x | x in s.trunkList :: x < 0x1_0000
  }

  /** The controls: combo indices are -1 with no selection, a cleared NumberBox holds NaN. */
  datatype Controls = Controls(
    mode: int,
    vlan: Option<real>,
    nativeVlan: Option<real>,
    trunkText: string,
    primary: Option<real>,
    secondary: Option<real>,
    role: int)

  predicate Selectable(c: Controls) {
    -1 <= c.mode <= 3 && -1 <= c.role <= 2
  }

  datatype Config =
    | Untagged
    | Access(vlanId: nat)
    | Trunk(native: nat, list: seq<nat>)
    | Private(primary: nat, secondary: nat, pvlanMode: nat)

  /** mkVlanNum: 0 stands for "not set" and shows the minimum. */
  function NumberBox(val: nat, min: nat): Option<real> {
    Some((if val != 0 then val else min) as real)
  }

  function Load(s: Stored): Controls {
    Controls(
      if s.mode <= 3 then s.mode else 0,
      NumberBox(if s.mode == 1 then s.vlanId else 0, 1),
      NumberBox(s.nativeVlanId, 0),
      Format(s.trunkList),
      NumberBox(s.primaryVlanId, 0),
      NumberBox(s.secondaryVlanId, 0),
      if 1 <= s.pvlanMode <= 3 then s.pvlanMode - 1 else 0)
  }

  /** numOf: NaN and small values become `lo`, large ones 4094, fractions are cut. */
  function NumOf(v: Option<real>, lo: nat): (r: nat)
    requires lo <= MAX_VLAN
    ensures lo <= r <= MAX_VLAN
  {
    match v
    case None => lo
    case Some(x) => if x < lo as real then lo else if x > MAX_VLAN as real then MAX_VLAN else x.Floor
  }

  function Read(c: Controls): Config {
    if c.mode == 1 then Access(NumOf(c.vlan, 1))
    else if c.mode == 2 then Trunk(NumOf(c.nativeVlan, 0), Parse(c.trunkText))
    else if c.mode == 3 then
      Private(NumOf(c.primary, 0), NumOf(c.secondary, 0), (if c.role < 0 then 0 else c.role) + 1)
    else Untagged
  }

  /** The per-mode comparison with what was loaded. */
  predicate Same(c: Config, s: Stored) {
    match c
    case Untagged => s.mode == 0
    case Access(id) => s.mode == 1 && id == s.vlanId
    case Trunk(native, list) => s.mode == 2 && native == s.nativeVlanId && list == s.trunkList
    case Private(p, q, m) => s.mode == 3 && p == s.primaryVlanId && q == s.secondaryVlanId && m == s.pvlanMode
  }

  function SaveVlan(s: Stored, c: Controls): Saved<Config> {
    var config := Read(c);
    if Same(config, s) then Unchanged
    else if config.Trunk? && config.list == [] then Rejected
    else Changed(config)
  }

  predicate WellFormed(c: Config) {
    match c
    case Untagged => true
    case Access(id) => IsVlan(id)
    case Trunk(native, list) => native <= MAX_VLAN && list != [] && forall i | 0 <= i < |list| :: IsVlan(list[i])
    case Private(p, q, m) => p <= MAX_VLAN && q <= MAX_VLAN && 1 <= m <= 3
  }

  /** What the stored state must be for the dialog to show it faithfully. */
  predicate Showable(s: Stored) {
    match s.mode
    case 0 => true
    case 1 => IsVlan(s.vlanId)
    case 2 => s.nativeVlanId <= MAX_VLAN && forall i | 0 <= i < |s.trunkList| :: IsVlan(s.trunkList[i])
    case 3 => s.primaryVlanId <= MAX_VLAN && s.secondaryVlanId <= MAX_VLAN && 1 <= s.pvlanMode <= 3
    case _ => false
  }

  lemma NumOfLoaded(val: nat, lo: nat)
    requires lo <= 1
    ensures NumOf(NumberBox(val, lo), lo) == val <==> lo <= val <= MAX_VLAN
  {}

  /** Loading and saving untouched emits nothing, if and only if the stored state is showable. */
  lemma VlanFixpoint(s: Stored)
    requires Fits16(s)
    ensures SaveVlan(s, Load(s)) == Unchanged <==> Showable(s)
  {
    NumOfLoaded(s.vlanId, 1);
    NumOfLoaded(s.nativeVlanId, 0);
    NumOfLoaded(s.primaryVlanId, 0);
    NumOfLoaded(s.secondaryVlanId, 0);
    FormatRoundTrip(s.trunkList);
  }

  /** The stored state once a config is applied. */
  function Apply(s: Stored, c: Config): Stored {
    match c
    case Untagged => s.(mode := 0)
    case Access(id) => s.(mode := 1, vlanId := id)
    case Trunk(native, list) => s.(mode := 2, nativeVlanId := native, trunkList := list)
    case Private(p, q, m) => s.(mode := 3, primaryVlanId := p, secondaryVlanId := q, pvlanMode := m)
  }

  /** Save writes only well-formed configs, and once one is applied neither the same controls
      nor a fresh dialog writes anything more. */
  lemma VlanWritten(s: Stored, c: Controls)
    requires Fits16(s) && Selectable(c) && SaveVlan(s, c).Changed?
    ensures var config := SaveVlan(s, c).config;
            && WellFormed(config)
            && SaveVlan(Apply(s, config), c) == Unchanged
            && SaveVlan(Apply(s, config), Load(Apply(s, config))) == Unchanged
  {
    ParseVlans(c.trunkText);
    var config := SaveVlan(s, c).config;
    if config.Trunk? {
      forall i | 0 <= i < |config.list| ensures IsVlan(config.list[i]) { assert config.list[i] in config.list; }
    }
    VlanFixpoint(Apply(s, config));
  }

  // ---- an edit is saved ------------------------------------------------------------

  /** The id a number box stands for: none and too little are `lo`, too much is 4094, and a
      fraction counts for the whole number below. */
  predicate Reads(v: Option<real>, lo: nat, id: nat) {
    match v
    case None => id == lo
    case Some(x) =>
      if x < lo as real then id == lo
      else if x > 4094.0 then id == 4094
      else id as real <= x < id as real + 1.0
  }

  /** What is stored is what the controls show, for the mode they show. */
  predicate Shows(c: Controls, s: Stored) {
    && s.mode == (if c.mode < 0 then 0 else c.mode)
    && (s.mode == 1 ==> Reads(c.vlan, 1, s.vlanId))
    && (s.mode == 2 ==> Reads(c.nativeVlan, 0, s.nativeVlanId) && s.trunkList == Parse(c.trunkText))
    && (s.mode == 3 ==>
          && Reads(c.primary, 0, s.primaryVlanId) && Reads(c.secondary, 0, s.secondaryVlanId)
          && s.pvlanMode == (if c.role < 0 then 0 else c.role) + 1)
  }

  lemma NumOfReads(v: Option<real>, lo: nat, id: nat)
    requires lo <= 4094
    ensures Reads(v, lo, id) <==> id == NumOf(v, lo)
  {}

  function StoredVlan(s: Stored, r: Saved<Config>): Stored {
    if r.Changed? then Apply(s, r.config) else s
  }

  /** A Save that is not refused leaves stored what the controls show, and it writes exactly
      when that was not stored before. It refuses exactly an empty trunk that was not stored. */
  lemma VlanSaved(s: Stored, c: Controls)
    requires Selectable(c)
    ensures var r := SaveVlan(s, c);
            && (!r.Rejected? ==> Shows(c, StoredVlan(s, r)))
            && (r.Unchanged? <==> Shows(c, s))
            && (r.Rejected? <==> c.mode == 2 && Parse(c.trunkText) == [] && !Shows(c, s))
  {
    forall v, lo: nat, id | lo <= 4094 ensures Reads(v, lo, id) <==> id == NumOf(v, lo) {
      NumOfReads(v, lo, id);
    }
    hide Reads, NumOf, Parse;
  }

  // ---- what an opened dialog shows ---------------------------------------------------

  /** A number box shows the stored id, or the least it allows for an id that is not set. */
  predicate Shown(v: Option<real>, id: nat, least: nat) {
    v == Some(if id == 0 then least as real else id as real)
  }

  /** An unknown mode shows as untagged and an unknown role as the first; the access box shows
      the stored id only in access mode. */
  lemma LoadExactly(s: Stored, c: Controls)
    ensures c == Load(s) <==>
            && c.mode == (if s.mode > 3 then 0 else s.mode)
            && Shown(c.vlan, if s.mode == 1 then s.vlanId else 0, 1)
            && Shown(c.nativeVlan, s.nativeVlanId, 0) && c.trunkText == Format(s.trunkList)
            && Shown(c.primary, s.primaryVlanId, 0) && Shown(c.secondary, s.secondaryVlanId, 0)
            && c.role == (if s.pvlanMode == 2 then 1 else if s.pvlanMode == 3 then 2 else 0)
  {
    hide Format;
  }
}
