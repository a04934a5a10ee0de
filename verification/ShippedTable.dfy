/** The wave.json that ships with the driver, and what the general theorems say of it. */
module ShippedTable {
  import opened Bytes
  import opened Numerals
  import opened WaveTable
  import opened FrameScan
  import opened Encapsulation
  import opened MqttRadioClients

  function Shipped(): (items: seq<WaveEntry>)
    ensures |items| == 14
  {
    [ WaveEntry("BSM", "0020", "20", "183", "6"),
      WaveEntry("MAP", "0082", "18", "183", "3"),
      WaveEntry("SPAT", "0082", "19", "183", "3"),
      WaveEntry("TIM", "0083", "31", "183", "3"),
      WaveEntry("PSM", "0027", "32", "183", "6"),
      WaveEntry("SensorDataSharingMessage", "8010", "41", "183", "6"),
      WaveEntry("MobilityRequest", "BFEE", "240", "183", "6"),
      WaveEntry("MobilityResponse", "BFEE", "241", "183", "6"),
      WaveEntry("MobilityOperation", "BFEE", "243", "183", "6"),
      WaveEntry("MobilityPath", "BFEE", "242", "183", "6"),
      WaveEntry("TrafficControlRequest", "8003", "244", "183", "6"),
      WaveEntry("TrafficControlMessage", "8003", "245", "183", "6"),
      WaveEntry("EmergencyVehicleResponse", "8005", "246", "183", "6"),
      WaveEntry("EmergencyVehicleAck", "8005", "247", "183", "6") ]
  }

  /** The numbers the ID column spells, row by row. */
  function IdNumbers(): (ids: seq<uint16>)
    ensures |ids| == 14
  {
    [20, 18, 19, 31, 32, 41, 240, 241, 243, 242, 244, 245, 246, 247]
  }

  lemma PrintTwoDigits(n: nat)
    requires 10 <= n < 100
    ensures Print(n) == [DIGITS[n / 10], DIGITS[n % 10]]
  {
  }

  lemma PrintThreeDigits(n: nat)
    requires 100 <= n < 1000
    ensures Print(n) == [DIGITS[n / 100], DIGITS[n / 10 % 10], DIGITS[n % 10]]
  {
    PrintTwoDigits(n / 10);
  }

  lemma IdColumn(k: nat)
    requires k < 14
    ensures Shipped()[k].dsrcMsgId == ToDecimal(IdNumbers()[k] as int)
  {
    hide Print;
    var n := IdNumbers()[k] as nat;
    if n < 100 {
      PrintTwoDigits(n);
    } else {
      PrintThreeDigits(n);
    }
  }

  /** The recognised IDs are the numbers in the ID column and no others. */
  lemma RecognisedIds(id: uint16)
    ensures Recognised(TablesOf(Shipped()), id) <==> id in IdNumbers()
  {
    if Recognised(TablesOf(Shipped()), id) {
      var k :| 0 <= k < 14 && Ids(Shipped())[k] == ToDecimal(id as int);
      IdColumn(k);
      PrintInjective(id as nat, IdNumbers()[k] as nat);
    }
    if id in IdNumbers() {
      var k :| 0 <= k < 14 && IdNumbers()[k] == id;
      IdColumn(k);
      assert Ids(Shipped())[k] == ToDecimal(id as int);
    }
  }

  /** The numbers the PSID column spells in hexadecimal, row by row. */
  function PsidNumbers(): (ns: seq<nat>)
    ensures |ns| == 14
  {
    [0x20, 0x82, 0x82, 0x83, 0x27, 0x8010, 0xBFEE, 0xBFEE, 0xBFEE, 0xBFEE, 0x8003, 0x8003, 0x8005, 0x8005]
  }

  lemma StoiOfFourDigits(s: string)
    requires |s| == 4 && AllHex(s)
    ensures StoiHex(s) == Some(4096 * HexDigitValue(s[0]) + 256 * HexDigitValue(s[1]) +
                               16 * HexDigitValue(s[2]) + HexDigitValue(s[3]))
  {
    assert StoiHex(s) == Some(Value(s, 16)) by {
      hide Value;
      HexRunOfHex(s);
      assert SkipSpaces(s) == s && SkipHexPrefix(s) == s;
      ValueOfFourDigits(s);
    }
    ValueOfFourDigits(s);
  }

  lemma ValueOfFourDigits(s: string)
    requires |s| == 4 && AllHex(s)
    ensures Value(s, 16) == 4096 * HexDigitValue(s[0]) + 256 * HexDigitValue(s[1]) +
                            16 * HexDigitValue(s[2]) + HexDigitValue(s[3])
  {
    hide HexDigitValue, IsHexDigit;
    assert s[..1][..0] == "" && s[..2][..1] == s[..1] && s[..3][..2] == s[..2];
    assert Value(s[..1], 16) == HexDigitValue(s[0]);
    assert Value(s[..2], 16) == 16 * Value(s[..1], 16) + HexDigitValue(s[1]);
    assert Value(s[..3], 16) == 16 * Value(s[..2], 16) + HexDigitValue(s[2]);
  }

  lemma PsidTexts()
    ensures StoiHex("0020") == Some(0x20) && StoiHex("0082") == Some(0x82) && StoiHex("0083") == Some(0x83)
    ensures StoiHex("0027") == Some(0x27) && StoiHex("8010") == Some(0x8010) && StoiHex("BFEE") == Some(0xBFEE)
    ensures StoiHex("8003") == Some(0x8003) && StoiHex("8005") == Some(0x8005)
  {
    hide StoiHex, Value, HexRun;
    StoiOfFourDigits("0020");
    StoiOfFourDigits("0082");
    StoiOfFourDigits("0083");
    StoiOfFourDigits("0027");
    StoiOfFourDigits("8010");
    StoiOfFourDigits("BFEE");
    StoiOfFourDigits("8003");
    StoiOfFourDigits("8005");
  }

  lemma PsidColumn(k: nat)
    requires k < 14
    ensures StoiHex(Shipped()[k].psid) == Some(PsidNumbers()[k])
  {
    hide StoiHex, AllHex, HexDigitValue, Value, HexRun;
    PsidTexts();
  }

  /** A PSID check of an ID finds it in the PSID column, and never throws. */
  lemma ShippedPsidCheck(id: uint16)
    ensures PsidCheck(TablesOf(Shipped()), id) == if id as nat in PsidNumbers() then Listed else NotListed
  {
    hide StoiHex, PsidLookup, Shipped, PsidNumbers;
    forall k | 0 <= k < 14 ensures StoiHex(Psids(Shipped())[k]) == Some(PsidNumbers()[k]) {
      PsidColumn(k);
    }
    PsidLookupOfNumbers(Psids(Shipped()), PsidNumbers(), id);
  }

  lemma ShippedTablePremises()
    ensures SmallIds(TablesOf(Shipped()))
    ensures Recognised(TablesOf(Shipped()), BSM_ID) && Recognised(TablesOf(Shipped()), BSM_PSID)
    ensures PsidCheck(TablesOf(Shipped()), BSM_PSID) == Listed && PsidCheck(TablesOf(Shipped()), BSM_ID) == NotListed
  {
    hide Recognised, Shipped, PsidLookup, ToDecimal;
    forall id: uint16 ensures Recognised(TablesOf(Shipped()), id) <==> id in IdNumbers() {
      RecognisedIds(id);
    }
    ShippedPsidCheck(BSM_ID);
    ShippedPsidCheck(BSM_PSID);
    assert PsidNumbers()[0] == BSM_PSID as nat && IdNumbers()[0] == BSM_ID && IdNumbers()[4] == BSM_PSID;
  }

  /** With the shipped table a well-formed BSM is recovered from behind its headers. */
  lemma ShippedTableRecoversBsm(w: seq<uint8>, f: seq<uint8>, after: Overread)
    requires WsmLength(w) && |f| < 0x1_0000 && BsmFrame(f)
    ensures Scan(TablesOf(Shipped()), Encapsulated(w, f), after) == Delivered(f, BSM_ID) <==>
            |Encapsulated(w, f)| <= MAX_FRAME
  {
    ShippedTablePremises();
    EncapsulatedBsmIsRecovered(TablesOf(Shipped()), w, f, after);
  }

  // ---------- the outbound topic before and after the table is loaded ----------

  lemma IdsDiffer(j: nat, k: nat)
    requires j < k < 14
    ensures ToDecimal(IdNumbers()[j] as int) != ToDecimal(IdNumbers()[k] as int)
  {
    hide ToDecimal;
    assert IdNumbers()[j] != IdNumbers()[k];
    if ToDecimal(IdNumbers()[j] as int) == ToDecimal(IdNumbers()[k] as int) {
      ToDecimalInjective(IdNumbers()[j] as nat, IdNumbers()[k] as nat);
    }
  }

  lemma {:induction false} PsidForRow(k: nat, j: nat)
    requires j <= k < 14
    ensures PsidFor(Tables(Ids(Shipped())[j..], Psids(Shipped())[j..]), ToDecimal(IdNumbers()[k] as int)) ==
            Shipped()[k].psid
    decreases k - j
  {
    hide ToDecimal, Shipped, IdNumbers;
    IdColumn(j);
    if j == k {
    } else {
      IdsDiffer(j, k);
      PsidForRow(k, j + 1);
      assert Ids(Shipped())[j..][1..] == Ids(Shipped())[j + 1..];
      assert Psids(Shipped())[j..][1..] == Psids(Shipped())[j + 1..];
    }
  }

  lemma RereadShort(n: nat)
    ensures 10 <= n < 100 ==> Reread(n) == 16 * (n / 10) + n % 10
    ensures 100 <= n < 1000 ==> Reread(n) == 256 * (n / 100) + 16 * (n / 10 % 10) + n % 10
  {
  }

  /** The topic number of row `k` once the table is loaded. */
  function LoadedNumber(k: nat, shared: nat): nat
    requires k < 14
  {
    [32, shared, shared, 131, 39, 144, 16494, 16494, 16494, 16494, 0x8003, 0x8003, 0x8005, 0x8005][k]
  }

  lemma LoadedTopic(k: nat, shared: nat)
    requires k < 14
    ensures TopicNumber(PsidText(TablesOf(Shipped()), IdNumbers()[k]), shared) == Some(LoadedNumber(k, shared))
  {
    hide StoiHex, PsidFor, ToDecimal;
    PsidForRow(k, 0);
    assert Ids(Shipped())[0..] == Ids(Shipped()) && Psids(Shipped())[0..] == Psids(Shipped());
    assert PsidText(TablesOf(Shipped()), IdNumbers()[k]) == Shipped()[k].psid;
    PsidTexts();
    assert "8003" !in Overrides(shared) && "8005" !in Overrides(shared) by {
      assert "8010"[2] == '1';
    }
  }

  lemma FallbackDiffers(k: nat, shared: nat)
    requires k < 14 && shared in {130, 2113687}
    ensures FallbackValue(IdNumbers()[k] as nat) == LoadedNumber(k, shared) <==> k == 0
  {
    hide Reread;
    RereadShort(IdNumbers()[k] as nat);
  }

  /** Under the shipped table, that is so exactly for a BSM. */
  lemma ShippedUnloadedTopic(k: nat, prefix: string, shared: nat)
    requires k < 14 && shared in {130, 2113687}
    ensures PublishTopic(prefix, PsidText(EMPTY_TABLES, IdNumbers()[k]), shared) ==
            PublishTopic(prefix, PsidText(TablesOf(Shipped()), IdNumbers()[k]), shared) <==>
            IdNumbers()[k] == BSM_ID
  {
    hide TopicNumber, PsidText, PublishTopic, FallbackValue, Shipped, LoadedNumber;
    LoadedTopic(k, shared);
    FallbackDiffers(k, shared);
    UnloadedTopicExactly(TablesOf(Shipped()), IdNumbers()[k], prefix, shared);
  }
}
