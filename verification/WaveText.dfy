/** The WAVE text a message is packed into for a UDP radio, its hexadecimal payload, and a reference
    reader for both. A C++ string is a string of 8-bit characters. */
module WaveText {
  import opened Bytes
  import opened Numerals
  import opened WaveTable

  datatype ByteArray = ByteArray(messageType: string, content: seq<uint8>)

  // ---------- hexadecimal payload ----------

  /** `std::setw(2)` with fill '0' before a number printed with `std::hex`. */
  function HexByte(b: uint8): string {
    var digits := PrintHex(b as nat);
    if |digits| < 2 then "0" + digits else digits
  }

  /** A byte's two digits, high nibble first. */
  function DigitPair(b: uint8): string {
    [DIGITS[b as nat / 16], DIGITS[b as nat % 16]]
  }

  /** Base 16 of section 8 of RFC 4648, in lower case. */
  function Base16(v: seq<uint8>): string {
    if v == [] then "" else DigitPair(v[0]) + Base16(v[1..])
  }

  function FromBase16(s: string): Option<seq<uint8>> {
    if s == "" then Some([])
    else if |s| == 1 || !IsHexDigit(s[0]) || !IsHexDigit(s[1]) then None
    else
      match FromBase16(s[2..])
      case None => None
      case Some(rest) => Some([(16 * HexDigitValue(s[0]) + HexDigitValue(s[1])) as uint8] + rest)
  }

  lemma HexByteIsDigitPair(b: uint8)
    ensures HexByte(b) == DigitPair(b)
  {
    var n := b as nat;
    if n >= 16 {
      assert PrintHex(n) == PrintHex(n / 16) + [DIGITS[n % 16]];
      assert PrintHex(n / 16) == [DIGITS[n / 16]];
    }
  }

  lemma {:induction false} Base16Snoc(v: seq<uint8>, b: uint8)
    ensures Base16(v + [b]) == Base16(v) + DigitPair(b)
  {
    hide DigitPair;
    if v == [] {
      assert v + [b] == [b] && [b][1..] == [];
    } else {
      Base16Snoc(v[1..], b);
      assert (v + [b])[1..] == v[1..] + [b];
    }
  }

  lemma PairReads(b: uint8)
    ensures var p := DigitPair(b);
            && |p| == 2 && IsHexDigit(p[0]) && IsHexDigit(p[1])
            && 16 * HexDigitValue(p[0]) + HexDigitValue(p[1]) == b as nat
            && NewlineFree(p) && ByteString(p)
  {
    DigitReads(b as nat / 16);
    DigitReads(b as nat % 16);
  }

  /** Letters are lower case. */
  lemma {:induction false} Base16IsLowerCase(v: seq<uint8>)
    ensures |Base16(v)| == 2 * |v|
    ensures forall i :: 0 <= i < |Base16(v)| ==> '0' <= Base16(v)[i] <= '9' || 'a' <= Base16(v)[i] <= 'f'
  {
    if v == [] {
    } else {
      Base16IsLowerCase(v[1..]);
    }
  }

  lemma DecodeStep(b: uint8, rest: string, v: seq<uint8>)
    requires FromBase16(rest) == Some(v)
    ensures FromBase16(DigitPair(b) + rest) == Some([b] + v)
  {
    hide IsHexDigit, HexDigitValue, DigitPair;
    PairReads(b);
    var s := DigitPair(b) + rest;
    assert s[0] == DigitPair(b)[0] && s[1] == DigitPair(b)[1] && s[2..] == rest;
  }

  /** Decoding undoes the printing of any byte string. */
  lemma {:induction false} Base16RoundTrip(v: seq<uint8>)
    ensures FromBase16(Base16(v)) == Some(v)
  {
    if v == [] {
    } else {
      hide FromBase16, DigitPair;
      Base16RoundTrip(v[1..]);
      DecodeStep(v[0], Base16(v[1..]), v[1..]);
      assert v == [v[0]] + v[1..];
    }
  }

  // ---------- lines ----------

  predicate NewlineFree(s: string) {
    '\n' !in s
  }

  function Unlines(lines: seq<string>): string {
    if lines == [] then "" else lines[0] + "\n" + Unlines(lines[1..])
  }

  function LineEnd(s: string): (e: nat)
    ensures e <= |s| && (e < |s| ==> s[e] == '\n')
    ensures forall i :: 0 <= i < e ==> s[i] != '\n'
  {
    if s == "" || s[0] == '\n' then 0 else 1 + LineEnd(s[1..])
  }

  /** The newline-terminated lines of a text; `None` when the last line is cut short. */
  function Lines(s: string): Option<seq<string>>
    decreases |s|
  {
    if s == "" then Some([])
    else
      var e := LineEnd(s);
      if e == |s| then None
      else
        match Lines(s[e + 1..])
        case None => None
        case Some(rest) => Some([s[..e]] + rest)
  }

  lemma FirstLine(l: string, rest: string)
    requires NewlineFree(l)
    ensures LineEnd(l + "\n" + rest) == |l|
  {
    var s := l + "\n" + rest;
    var e := LineEnd(s);
    assert forall i :: 0 <= i < |l| ==> s[i] == l[i];
    assert s[|l|] == '\n';
  }

  lemma {:induction false} LinesOfUnlines(lines: seq<string>)
    requires forall l :: l in lines ==> NewlineFree(l)
    ensures Lines(Unlines(lines)) == Some(lines)
  {
    if lines == [] {
    } else {
      var l, rest := lines[0], Unlines(lines[1..]);
      var s := l + "\n" + rest;
      FirstLine(l, rest);
      LinesOfUnlines(lines[1..]);
      assert s[..|l|] == l && s[|l| + 1..] == rest;
      assert lines == [l] + lines[1..];
    }
  }

  // ---------- the packed message ----------

  /** The configuration a message is sent with: its type's entry, or the defaults. */
  function ConfigFor(items: seq<WaveEntry>, m: ByteArray): WaveEntry
    requires FindByName(items, m.messageType).Some? || |m.content| >= 2
  {
    match FindByName(items, m.messageType)
    case Some(e) => e
    case None =>
      var id := ToDecimal(BigEndian(m.content[0], m.content[1]) as int);
      WaveEntry(m.messageType, id, id, "CCH", "1")
  }

  function PackedLines(cfg: WaveEntry, content: seq<uint8>): seq<string> {
    [ "Version=0.7",
      "Type=" + cfg.name,
      "PSID=" + cfg.psid,
      "Priority=" + cfg.priority,
      "TxMode=ALT",
      "TxChannel=" + cfg.channel,
      "TxInterval=0",
      "DeliveryStart=",
      "DeliveryStop=",
      "Signature=False",
      "Encryption=False",
      "Payload=" + Base16(content) ]
  }

  function PackedText(cfg: WaveEntry, content: seq<uint8>): string {
    Unlines(PackedLines(cfg, content))
  }

  // ---------- the reference reader ----------

  datatype Parsed = Parsed(messageType: string, psid: string, priority: string, channel: string, payload: seq<uint8>)

  function After(key: string, line: string): Option<string> {
    if |key| <= |line| && line[..|key|] == key then Some(line[|key|..]) else None
  }

  /** The lines that never vary. */
  predicate FixedLines(ls: seq<string>)
    requires |ls| == 12
  {
    && ls[0] == "Version=0.7" && ls[4] == "TxMode=ALT" && ls[6] == "TxInterval=0" && ls[7] == "DeliveryStart="
    && ls[8] == "DeliveryStop=" && ls[9] == "Signature=False" && ls[10] == "Encryption=False"
  }

  function ParseText(s: string): Option<Parsed> {
    match Lines(s)
    case None => None
    case Some(ls) =>
      if |ls| != 12 || !FixedLines(ls) then None
      else
        match (After("Type=", ls[1]), After("PSID=", ls[2]), After("Priority=", ls[3]),
               After("TxChannel=", ls[5]), After("Payload=", ls[11]))
        case (Some(name), Some(psid), Some(priority), Some(channel), Some(hex)) =>
          (match FromBase16(hex)
           case None => None
           case Some(payload) => Some(Parsed(name, psid, priority, channel, payload)))
        case _ => None
  }

  lemma AfterKey(key: string, rest: string)
    ensures After(key, key + rest) == Some(rest)
  {
    assert (key + rest)[..|key|] == key && (key + rest)[|key|..] == rest;
  }

  predicate PlainEntry(e: WaveEntry) {
    NewlineFree(e.name) && NewlineFree(e.psid) && NewlineFree(e.channel) && NewlineFree(e.priority)
  }

  lemma {:induction false} Base16IsPlain(v: seq<uint8>)
    ensures NewlineFree(Base16(v)) && ByteString(Base16(v))
  {
    if v == [] {
    } else {
      hide DigitPair;
      PairReads(v[0]);
      Base16IsPlain(v[1..]);
      ByteStringConcat(DigitPair(v[0]), Base16(v[1..]));
    }
  }

  lemma NewlineFreeConcat(s: string, t: string)
    requires NewlineFree(s) && NewlineFree(t)
    ensures NewlineFree(s + t)
  {
  }

  lemma PackedLinesArePlain(cfg: WaveEntry, content: seq<uint8>)
    requires PlainEntry(cfg)
    ensures forall l :: l in PackedLines(cfg, content) ==> NewlineFree(l)
  {
    hide Base16;
    Base16IsPlain(content);
    NewlineFreeConcat("Type=", cfg.name);
    NewlineFreeConcat("PSID=", cfg.psid);
    NewlineFreeConcat("Priority=", cfg.priority);
    NewlineFreeConcat("TxChannel=", cfg.channel);
    NewlineFreeConcat("Payload=", Base16(content));
  }

  /** The reader recovers every field that varies. */
  lemma TextRoundTrip(cfg: WaveEntry, content: seq<uint8>)
    requires PlainEntry(cfg)
    ensures ParseText(PackedText(cfg, content)) ==
            Some(Parsed(cfg.name, cfg.psid, cfg.priority, cfg.channel, content))
  {
    var lines := PackedLines(cfg, content);
    PackedLinesArePlain(cfg, content);
    LinesOfUnlines(lines);
    AfterKey("Type=", cfg.name);
    AfterKey("PSID=", cfg.psid);
    AfterKey("Priority=", cfg.priority);
    AfterKey("TxChannel=", cfg.channel);
    AfterKey("Payload=", Base16(content));
    Base16RoundTrip(content);
  }

  // ---------- bytes ----------

  predicate ByteString(s: string) {
    forall i :: 0 <= i < |s| ==> s[i] as int < 256
  }

  /** `std::vector<uint8_t>(str.begin(), str.end())`. */
  function BytesOf(s: string): (v: seq<uint8>)
    ensures |v| == |s| && forall i :: 0 <= i < |s| ==> v[i] as int == s[i] as int % 256
  {
    seq(|s|, i requires 0 <= i < |s| => (s[i] as int % 256) as uint8)
  }

  function TextOf(v: seq<uint8>): string {
    seq(|v|, i requires 0 <= i < |v| => v[i] as char)
  }

  lemma TextOfBytes(s: string)
    requires ByteString(s)
    ensures TextOf(BytesOf(s)) == s
  {
  }

  function Packed(items: seq<WaveEntry>, m: ByteArray): seq<uint8>
    requires FindByName(items, m.messageType).Some? || |m.content| >= 2
  {
    BytesOf(PackedText(ConfigFor(items, m), m.content))
  }

  predicate ByteEntry(e: WaveEntry) {
    ByteString(e.name) && ByteString(e.psid) && ByteString(e.channel) && ByteString(e.priority)
  }

  /** Every text in the table and the type fits the line format. */
  ghost predicate WellFormed(items: seq<WaveEntry>, messageType: string) {
    && NewlineFree(messageType) && ByteString(messageType)
    && forall e :: e in items ==> PlainEntry(e) && ByteEntry(e)
  }

  lemma ByteStringConcat(s: string, t: string)
    requires ByteString(s) && ByteString(t)
    ensures ByteString(s + t)
  {
  }

  lemma {:induction false} UnlinesAreBytes(lines: seq<string>)
    requires forall l :: l in lines ==> ByteString(l)
    ensures ByteString(Unlines(lines))
  {
    if lines == [] {
    } else {
      UnlinesAreBytes(lines[1..]);
      ByteStringConcat(lines[0], "\n");
      ByteStringConcat(lines[0] + "\n", Unlines(lines[1..]));
    }
  }

  lemma FixedTextIsBytes()
    ensures ByteString("Version=0.7") && ByteString("TxMode=ALT") && ByteString("TxInterval=0")
    ensures ByteString("DeliveryStart=") && ByteString("DeliveryStop=") && ByteString("Signature=False")
    ensures ByteString("Encryption=False") && ByteString("Type=") && ByteString("PSID=") && ByteString("Priority=")
    ensures ByteString("TxChannel=") && ByteString("Payload=")
  {
  }

  lemma PackedLinesAreBytes(cfg: WaveEntry, content: seq<uint8>)
    requires ByteEntry(cfg)
    ensures forall l :: l in PackedLines(cfg, content) ==> ByteString(l)
  {
    hide ByteString, Base16;
    FixedTextIsBytes();
    Base16IsPlain(content);
    ByteStringConcat("Type=", cfg.name);
    ByteStringConcat("PSID=", cfg.psid);
    ByteStringConcat("Priority=", cfg.priority);
    ByteStringConcat("TxChannel=", cfg.channel);
    ByteStringConcat("Payload=", Base16(content));
  }

  lemma ConfigIsWellFormed(items: seq<WaveEntry>, m: ByteArray)
    requires WellFormed(items, m.messageType)
    requires FindByName(items, m.messageType).Some? || |m.content| >= 2
    ensures PlainEntry(ConfigFor(items, m)) && ByteEntry(ConfigFor(items, m))
    ensures ConfigFor(items, m).name == m.messageType
  {
    if FindByName(items, m.messageType).None? {
      PrintIsDecimal(BigEndian(m.content[0], m.content[1]) as nat);
    }
  }

  /** The packed bytes carry the message: its type, its entry's fields and its content. */
  lemma PackRoundTrip(items: seq<WaveEntry>, m: ByteArray)
    requires WellFormed(items, m.messageType)
    requires FindByName(items, m.messageType).Some? || |m.content| >= 2
    ensures var cfg := ConfigFor(items, m);
            ParseText(TextOf(Packed(items, m))) ==
            Some(Parsed(m.messageType, cfg.psid, cfg.priority, cfg.channel, m.content))
  {
    var cfg := ConfigFor(items, m);
    ConfigIsWellFormed(items, m);
    PackedLinesAreBytes(cfg, m.content);
    UnlinesAreBytes(PackedLines(cfg, m.content));
    TextOfBytes(PackedText(cfg, m.content));
    TextRoundTrip(cfg, m.content);
  }

  /** Entry `k` is the first of its name. */
  ghost predicate FirstNamed(items: seq<WaveEntry>, name: string, k: int) {
    0 <= k < |items| && items[k].name == name && forall j :: 0 <= j < k ==> items[j].name != name
  }

  /** The bytes read as the message, with the fields of the first entry of its type or, without an entry,
      with its first two bytes as PSID, channel CCH and priority 1. */
  ghost predicate Carries(items: seq<WaveEntry>, m: ByteArray, bytes: seq<uint8>) {
    && (forall k :: FirstNamed(items, m.messageType, k) ==>
          ParseText(TextOf(bytes)) ==
          Some(Parsed(m.messageType, items[k].psid, items[k].priority, items[k].channel, m.content)))
    && ((forall k :: 0 <= k < |items| ==> items[k].name != m.messageType) && |m.content| >= 2 ==>
          var psid := ToDecimal(256 * (m.content[0] as int) + m.content[1] as int);
          ParseText(TextOf(bytes)) == Some(Parsed(m.messageType, psid, "1", "CCH", m.content)))
  }

  /** The packed bytes say so, entry and defaults alike. */
  lemma PackedCarries(items: seq<WaveEntry>, m: ByteArray)
    requires WellFormed(items, m.messageType)
    requires FindByName(items, m.messageType).Some? || |m.content| >= 2
    ensures Carries(items, m, Packed(items, m))
  {
    PackRoundTrip(items, m);
    hide ParseText, TextOf, Packed;
    forall k | FirstNamed(items, m.messageType, k) ensures ConfigFor(items, m) == items[k] {
      FirstIsFound(items, m.messageType, k);
    }
  }

  lemma FirstIsFound(items: seq<WaveEntry>, name: string, k: nat)
    requires FirstNamed(items, name, k)
    ensures FindByName(items, name) == Some(items[k])
  {
    hide FindByName;
    var r := FindByName(items, name);
    assert items[k].name == name;
    var i :| 0 <= i < |items| && items[i] == r.value && items[i].name == name
             && forall j :: 0 <= j < i ==> items[j].name != name;
  }

  /** Two messages with the same packed bytes are the same message. */
  lemma PackInjective(items: seq<WaveEntry>, m: ByteArray, n: ByteArray)
    requires WellFormed(items, m.messageType) && WellFormed(items, n.messageType)
    requires FindByName(items, m.messageType).Some? || |m.content| >= 2
    requires FindByName(items, n.messageType).Some? || |n.content| >= 2
    requires Packed(items, m) == Packed(items, n)
    ensures m == n
  {
    PackRoundTrip(items, m);
    PackRoundTrip(items, n);
  }
}
