/**
 * The partition log: a file of fixed 32-byte records, each four big-endian
 * longs (file version, compaction version, min start time, max end time).
 * Reading it files every record into a caller-owned map from TsFileID to
 * FileTimeIndex, where the id also carries the reader's region and
 * partition.
 */
module PartitionLog {
  import opened Results
  import opened BigEndian

  /** Four longs per record: 32 bytes, written as the literal 32 in offsets so that they stay linear. */
  const RECORD_BYTES: nat := 4 * LONG_BYTES

  datatype TsFileID = TsFileID(regionId: int, timePartitionId: int, fileVersion: int, compactionVersion: int)

  datatype FileTimeIndex = FileTimeIndex(startTime: int, endTime: int)

  datatype LogRecord = LogRecord(fileVersion: int, compactionVersion: int, minStartTime: int, maxEndTime: int)

  datatype IOError = EndOfFile

  datatype NumberFormatException = NumberFormatException(input: string)

  // ---------------------------------------------------------------- Integer.parseInt

  predicate IsDigit(c: char) { '0' <= c <= '9' }

  function DigitValue(c: char): (d: nat)
    requires IsDigit(c)
    ensures d < 10
  {
    (c as int - '0' as int) as nat
  }

  function DigitChar(d: nat): (c: char)
    requires d < 10
    ensures IsDigit(c) && DigitValue(c) == d
  {
    ('0' as int + d) as char
  }

  predicate AllDigits(s: string)
  {
    forall k :: 0 <= k < |s| ==> IsDigit(s[k])
  }

  /** The value of a string of decimal digits, most significant first. */
  function DigitsValue(s: string): nat
    requires AllDigits(s)
  {
    if s == [] then 0 else DigitsValue(s[..|s| - 1]) * 10 + DigitValue(s[|s| - 1])
  }

  /** An optional sign followed by at least one ASCII digit. */
  predicate IsSignedDecimal(s: string)
  {
    && |s| >= 1
    && (IsDigit(s[0]) || (|s| >= 2 && (s[0] == '-' || s[0] == '+')))
    && forall k :: 1 <= k < |s| ==> IsDigit(s[k])
  }

  /** The value a signed decimal string denotes: its digits, negated after a minus sign. */
  function SignedDecimalValue(s: string): int
    requires IsSignedDecimal(s)
  {
    var digits := if IsDigit(s[0]) then s else s[1..];
    assert AllDigits(digits) by {
      forall k | 0 <= k < |digits| ensures IsDigit(digits[k]) {
        if IsDigit(s[0]) { assert digits[k] == s[k]; } else { assert digits[k] == s[k + 1]; }
      }
    }
    var magnitude: int := DigitsValue(digits);
    if s[0] == '-' then -magnitude else magnitude
  }

  /**
   * Integer.parseInt in radix 10 on ASCII digits: an optional sign, then at
   * least one digit, and the value must fit in a Java int.
   */
  function ParseDecimalInt(s: string): (r: Option<int>)
    ensures r.Some? ==> IsInt32(r.value)
    ensures s == [] || s == "-" || s == "+" ==> r.None?
    ensures r.Some? ==> forall k :: 1 <= k < |s| ==> IsDigit(s[k])
    ensures r.Some? ==> IsDigit(s[0]) || s[0] == '-' || s[0] == '+'
    ensures r.Some? <==> IsSignedDecimal(s) && IsInt32(SignedDecimalValue(s))
    ensures r.Some? ==> r.value == SignedDecimalValue(s)
  {
    if s == [] then None
    else
      var digits := if s[0] == '-' || s[0] == '+' then s[1..] else s;
      if digits == [] || !AllDigits(digits) then None
      else
        var magnitude: int := DigitsValue(digits);
        var v := if s[0] == '-' then -magnitude else magnitude;
        if IsInt32(v) then
          assert forall k :: 1 <= k < |s| ==> IsDigit(s[k]) by {
            forall k | 1 <= k < |s| ensures IsDigit(s[k]) {
              if s[0] == '-' || s[0] == '+' { assert s[k] == digits[k - 1]; } else { assert s[k] == digits[k]; }
            }
          }
          assert !(s[0] == '-' || s[0] == '+') ==> IsDigit(digits[0]);
          Some(v)
        else None
  }

  /** The shortest decimal digits of a natural number (Integer.toString without the sign). */
  function NatToDigits(n: nat): (s: string)
    ensures s != [] && AllDigits(s)
  {
    if n < 10 then [DigitChar(n)] else NatToDigits(n / 10) + [DigitChar(n % 10)]
  }

  /** Integer.toString in radix 10. */
  function ToDecimal(v: int): string
  {
    if v < 0 then "-" + NatToDigits(-v) else NatToDigits(v)
  }

  lemma {:induction false} DigitsValueOfNatToDigits(n: nat)
    ensures DigitsValue(NatToDigits(n)) == n
  {
    var s := NatToDigits(n);
    if n >= 10 {
      assert s[..|s| - 1] == NatToDigits(n / 10);
      DigitsValueOfNatToDigits(n / 10);
    } else {
      assert s[..|s| - 1] == [];
    }
  }

  /** Every Java int's decimal form parses back to it. */
  lemma ParseDecimalIntOfToDecimal(v: int)
    requires IsInt32(v)
    ensures ParseDecimalInt(ToDecimal(v)) == Some(v)
  {
    var s := ToDecimal(v);
    if v < 0 {
      assert s[1..] == NatToDigits(-v);
      DigitsValueOfNatToDigits(-v);
    } else {
      DigitsValueOfNatToDigits(v);
    }
  }

  /** Integer.parseInt accepts a plus sign and leading zeros, and reads minus zero as zero. */
  lemma ParseDecimalIntSigns()
    ensures ParseDecimalInt("12") == Some(12)
    ensures ParseDecimalInt("+7") == Some(7)
    ensures ParseDecimalInt("007") == Some(7)
    ensures ParseDecimalInt("-0") == Some(0)
    ensures ParseDecimalInt("--1") == None
  {
    assert DigitsValue("12") == 12 by { assert "12"[..1] == "1"; }
    assert DigitsValue("00") == 0 by { assert "00"[..1] == "0"; }
    assert DigitsValue("007") == 7 by { assert "007"[..2] == "00"; }
    assert "+7"[1..] == "7";
    assert "-0"[1..] == "0";
    assert "--1"[1..] == "-1";
  }

  /** The digits of 2^31, the first magnitude beyond Integer.MAX_VALUE. */
  lemma DigitsOfTwoToThe31()
    ensures AllDigits("2147483648") && DigitsValue("2147483648") == 2147483648
  {
    assert DigitsValue("21") == 21 by { assert "21"[..1] == "2"; }
    assert DigitsValue("214") == 214 by { assert "214"[..2] == "21"; }
    assert DigitsValue("2147") == 2147 by { assert "2147"[..3] == "214"; }
    assert DigitsValue("21474") == 21474 by { assert "21474"[..4] == "2147"; }
    assert DigitsValue("214748") == 214748 by { assert "214748"[..5] == "21474"; }
    assert DigitsValue("2147483") == 2147483 by { assert "2147483"[..6] == "214748"; }
    assert DigitsValue("21474836") == 21474836 by { assert "21474836"[..7] == "2147483"; }
    assert DigitsValue("214748364") == 214748364 by { assert "214748364"[..8] == "21474836"; }
    assert "2147483648"[..9] == "214748364";
  }

  /** The int range is enforced at both ends: -2^31 is accepted, 2^31 is rejected. */
  lemma ParseDecimalIntRange()
    ensures ParseDecimalInt("-2147483648") == Some(-2147483648)
    ensures ParseDecimalInt("2147483648") == None
  {
    DigitsOfTwoToThe31();
    assert "-2147483648"[1..] == "2147483648";
  }

  /** A string with a character that is neither a digit nor a leading sign is rejected. */
  lemma NonNumericRegionIdIsRejected(s: string, k: nat)
    requires k < |s| && !IsDigit(s[k]) && (k > 0 || (s[0] != '-' && s[0] != '+'))
    ensures ParseDecimalInt(s).None?
  {
  }

  // ---------------------------------------------------------------- record layout

  predicate IsLogRecord(r: LogRecord)
  {
    IsInt64(r.fileVersion) && IsInt64(r.compactionVersion) && IsInt64(r.minStartTime) && IsInt64(r.maxEndTime)
  }

  /** The long at byte offset `at`. */
  function LongAt(contents: seq<Byte>, at: nat): int
    requires at + LONG_BYTES <= |contents|
  {
    Int64(contents[at..at + LONG_BYTES])
  }

  /** The i-th record: four longs in the order version, compaction version, start, end. */
  function RecordAt(contents: seq<Byte>, i: nat): (r: LogRecord)
    requires 32 * i + 32 <= |contents|
    ensures IsLogRecord(r)
  {
    var at := 32 * i;
    LogRecord(LongAt(contents, at), LongAt(contents, at + 8), LongAt(contents, at + 16), LongAt(contents, at + 24))
  }

  /** The first k records, in file order. */
  function Records(contents: seq<Byte>, k: nat): (rs: seq<LogRecord>)
    requires 32 * k <= |contents|
    ensures |rs| == k
    ensures forall i :: 0 <= i < k ==> rs[i] == RecordAt(contents, i)
  {
    if k == 0 then [] else Records(contents, k - 1) + [RecordAt(contents, k - 1)]
  }

  function EncodeRecord(r: LogRecord): (s: seq<Byte>)
    requires IsLogRecord(r)
    ensures |s| == 32
  {
    EncodeInt64(r.fileVersion) + EncodeInt64(r.compactionVersion) + EncodeInt64(r.minStartTime) + EncodeInt64(r.maxEndTime)
  }

  /** The bytes of a log holding `rs`, as the writer side lays them out. */
  function EncodeLog(rs: seq<LogRecord>): (s: seq<Byte>)
    requires forall i :: 0 <= i < |rs| ==> IsLogRecord(rs[i])
    ensures |s| == 32 * |rs|
  {
    if rs == [] then [] else EncodeLog(rs[..|rs| - 1]) + EncodeRecord(rs[|rs| - 1])
  }

  lemma {:induction false} EncodeLogSlice(rs: seq<LogRecord>, i: nat)
    requires forall j :: 0 <= j < |rs| ==> IsLogRecord(rs[j])
    requires i < |rs|
    ensures EncodeLog(rs)[32 * i..32 * i + 32] == EncodeRecord(rs[i])
  {
    var init := rs[..|rs| - 1];
    var prefix := EncodeLog(init);
    assert EncodeLog(rs) == prefix + EncodeRecord(rs[|rs| - 1]);
    if i < |rs| - 1 {
      EncodeLogSlice(init, i);
      assert init[i] == rs[i];
      SliceOfHead(prefix, EncodeRecord(rs[|rs| - 1]), 32 * i, 32 * i + 32);
    } else {
      SliceOfTail(prefix, EncodeRecord(rs[|rs| - 1]));
    }
  }

  /** A slice inside the first part of a concatenation is a slice of that part. */
  lemma SliceOfHead(a: seq<Byte>, b: seq<Byte>, lo: nat, hi: nat)
    requires lo <= hi <= |a|
    ensures (a + b)[lo..hi] == a[lo..hi]
  {
    assert forall k :: 0 <= k < hi - lo ==> (a + b)[lo..hi][k] == a[lo + k];
  }

  /** The slice after the first part of a concatenation is the second part. */
  lemma SliceOfTail(a: seq<Byte>, b: seq<Byte>)
    ensures (a + b)[|a|..|a| + |b|] == b
  {
    assert forall k :: 0 <= k < |b| ==> (a + b)[|a|..|a| + |b|][k] == b[k];
  }

  lemma LongsOfEncodeRecord(r: LogRecord)
    requires IsLogRecord(r)
    ensures var e := EncodeRecord(r);
            && LongAt(e, 0) == r.fileVersion && LongAt(e, 8) == r.compactionVersion
            && LongAt(e, 16) == r.minStartTime && LongAt(e, 24) == r.maxEndTime
  {
    var e := EncodeRecord(r);
    assert e[0..8] == EncodeInt64(r.fileVersion);
    assert e[8..16] == EncodeInt64(r.compactionVersion);
    assert e[16..24] == EncodeInt64(r.minStartTime);
    assert e[24..32] == EncodeInt64(r.maxEndTime);
  }

  lemma LongAtShift(big: seq<Byte>, at: nat, small: seq<Byte>, offset: nat)
    requires at + |small| <= |big| && big[at..at + |small|] == small && offset + LONG_BYTES <= |small|
    ensures LongAt(big, at + offset) == LongAt(small, offset)
  {
    var window := big[at + offset..at + offset + LONG_BYTES];
    var part := small[offset..offset + LONG_BYTES];
    forall k | 0 <= k < |window| ensures window[k] == part[k] {
      assert big[at..at + |small|][offset + k] == small[offset + k];
    }
    assert window == part;
  }

  lemma RecordAtOfWindow(log: seq<Byte>, i: nat, e: seq<Byte>)
    requires 32 * i + 32 <= |log| && |e| == 32 && log[32 * i..32 * i + 32] == e
    ensures RecordAt(log, i) == LogRecord(LongAt(e, 0), LongAt(e, 8), LongAt(e, 16), LongAt(e, 24))
  {
    LongAtShift(log, 32 * i, e, 0);
    LongAtShift(log, 32 * i, e, 8);
    LongAtShift(log, 32 * i, e, 16);
    LongAtShift(log, 32 * i, e, 24);
  }

  lemma RecordAtOfEncodeLog(rs: seq<LogRecord>, i: nat)
    requires forall j :: 0 <= j < |rs| ==> IsLogRecord(rs[j])
    requires i < |rs|
    ensures RecordAt(EncodeLog(rs), i) == rs[i]
  {
    EncodeLogSlice(rs, i);
    LongsOfEncodeRecord(rs[i]);
    RecordAtOfWindow(EncodeLog(rs), i, EncodeRecord(rs[i]));
  }

  /** A log of k encoded records decodes to exactly those k records, in order. */
  lemma RecordsOfEncodeLog(rs: seq<LogRecord>)
    requires forall i :: 0 <= i < |rs| ==> IsLogRecord(rs[i])
    ensures Records(EncodeLog(rs), |rs|) == rs
  {
    forall i | 0 <= i < |rs| ensures RecordAt(EncodeLog(rs), i) == rs[i] {
      RecordAtOfEncodeLog(rs, i);
    }
  }

  // ---------------------------------------------------------------- the read loop, specified

  function KeyOf(dataRegionId: int, partitionId: int, r: LogRecord): TsFileID
  {
    TsFileID(dataRegionId, partitionId, r.fileVersion, r.compactionVersion)
  }

  function TimeIndexOf(r: LogRecord): FileTimeIndex
  {
    FileTimeIndex(r.minStartTime, r.maxEndTime)
  }

  /** The map after putting every record, in order. */
  function PutAll(m: map<TsFileID, FileTimeIndex>, dataRegionId: int, partitionId: int, rs: seq<LogRecord>)
    : (r: map<TsFileID, FileTimeIndex>)
    ensures m.Keys <= r.Keys
  {
    if rs == [] then m
    else
      var last := rs[|rs| - 1];
      PutAll(m, dataRegionId, partitionId, rs[..|rs| - 1])[KeyOf(dataRegionId, partitionId, last) := TimeIndexOf(last)]
  }

  /** How many times the loop body starts: readLength goes 0, 32, 64, ... while below the captured length. */
  function Iterations(fileLength: nat): (c: nat)
    ensures 32 * c >= fileLength
    ensures c == 0 || 32 * (c - 1) < fileLength
  {
    (fileLength + 31) / 32
  }

  /** The records put before the loop ends or a readLong runs out of input. */
  function LoadedRecords(fileLength: nat, contents: seq<Byte>): (k: nat)
    ensures 32 * k <= |contents| && k <= Iterations(fileLength)
  {
    if 32 * Iterations(fileLength) <= |contents| then Iterations(fileLength) else |contents| / 32
  }

  /** read succeeds exactly when every iteration finds a whole record. */
  function ReadOutcome(fileLength: nat, contents: seq<Byte>): (r: Result<(), IOError>)
    ensures r.Success? <==> forall i :: 0 <= i < Iterations(fileLength) ==> 32 * i + 32 <= |contents|
    ensures r.Failure? ==> r.error == EndOfFile
  {
    if 32 * Iterations(fileLength) <= |contents| then Success(()) else Failure(EndOfFile)
  }

  /** A log exactly 32k bytes long, with the same captured length, loads all k records without error. */
  lemma WholeLogLoadsEveryRecord(contents: seq<Byte>, k: nat)
    requires |contents| == 32 * k
    ensures ReadOutcome(|contents|, contents).Success?
    ensures LoadedRecords(|contents|, contents) == k
  {
    var c := Iterations(|contents|);
    assert 32 * c >= 32 * k;
    assert c == 0 || 32 * (c - 1) < 32 * k;
  }

  /** A log whose bytes do not fill its last record, and are no more than the captured length, fails. */
  lemma TruncatedLogFails(fileLength: nat, contents: seq<Byte>)
    requires |contents| <= fileLength && |contents| % 32 != 0
    ensures ReadOutcome(fileLength, contents).Failure?
    ensures LoadedRecords(fileLength, contents) == |contents| / 32
  {
    var c := Iterations(fileLength);
    assert 32 * c >= |contents|;
    assert 32 * c != |contents|;
  }

  /** The entry for a key is the value of the last record with that key. */
  lemma {:induction false} LastRecordWins(
    m: map<TsFileID, FileTimeIndex>, dataRegionId: int, partitionId: int, rs: seq<LogRecord>, j: nat)
    requires j < |rs|
    requires forall l :: j < l < |rs| ==>
               KeyOf(dataRegionId, partitionId, rs[l]) != KeyOf(dataRegionId, partitionId, rs[j])
    ensures var key := KeyOf(dataRegionId, partitionId, rs[j]);
            var r := PutAll(m, dataRegionId, partitionId, rs);
            key in r && r[key] == TimeIndexOf(rs[j])
  {
    if j < |rs| - 1 {
      var init := rs[..|rs| - 1];
      forall l | j < l < |init| ensures KeyOf(dataRegionId, partitionId, init[l]) != KeyOf(dataRegionId, partitionId, init[j]) {
        assert init[l] == rs[l];
      }
      LastRecordWins(m, dataRegionId, partitionId, init, j);
      assert init[j] == rs[j];
    }
  }

  /** Keys no record produces keep their presence and their value. */
  lemma {:induction false} OtherKeysUnchanged(
    m: map<TsFileID, FileTimeIndex>, dataRegionId: int, partitionId: int, rs: seq<LogRecord>, key: TsFileID)
    requires forall l :: 0 <= l < |rs| ==> KeyOf(dataRegionId, partitionId, rs[l]) != key
    ensures key in PutAll(m, dataRegionId, partitionId, rs) <==> key in m
    ensures key in m ==> PutAll(m, dataRegionId, partitionId, rs)[key] == m[key]
  {
    if rs != [] {
      var init := rs[..|rs| - 1];
      assert forall l :: 0 <= l < |init| ==> init[l] == rs[l];
      OtherKeysUnchanged(m, dataRegionId, partitionId, init, key);
    }
  }

  /** Every key read adds carries the reader's region and partition. */
  lemma {:induction false} NewKeysCarryReaderIds(
    m: map<TsFileID, FileTimeIndex>, dataRegionId: int, partitionId: int, rs: seq<LogRecord>, key: TsFileID)
    requires key in PutAll(m, dataRegionId, partitionId, rs) && key !in m
    ensures key.regionId == dataRegionId && key.timePartitionId == partitionId
  {
    if rs != [] {
      var last := rs[|rs| - 1];
      if key != KeyOf(dataRegionId, partitionId, last) {
        NewKeysCarryReaderIds(m, dataRegionId, partitionId, rs[..|rs| - 1], key);
      }
    }
  }

  /** One more record put extends the fold by one put. */
  lemma PutAllStep(m: map<TsFileID, FileTimeIndex>, dataRegionId: int, partitionId: int, contents: seq<Byte>, count: nat)
    requires 32 * count + 32 <= |contents|
    ensures var record := RecordAt(contents, count);
            PutAll(m, dataRegionId, partitionId, Records(contents, count + 1)) ==
            PutAll(m, dataRegionId, partitionId, Records(contents, count))[KeyOf(dataRegionId, partitionId, record) := TimeIndexOf(record)]
  {
    var rs := Records(contents, count + 1);
    assert rs[..count] == Records(contents, count);
  }

  /** An iteration that cannot find a whole record is where read fails. */
  lemma ShortIterationFails(fileLength: nat, contents: seq<Byte>, count: nat)
    requires 32 * count < fileLength && 32 * count <= |contents| < 32 * count + 32
    ensures ReadOutcome(fileLength, contents) == Failure(EndOfFile)
    ensures LoadedRecords(fileLength, contents) == count
  {
    var c := Iterations(fileLength);
    assert c > count;
    assert |contents| / 32 == count;
  }

  /** When the loop condition fails, every iteration has found a whole record. */
  lemma LoopExitSucceeds(fileLength: nat, contents: seq<Byte>, count: nat)
    requires 32 * count >= fileLength && count <= Iterations(fileLength) && 32 * count <= |contents|
    ensures ReadOutcome(fileLength, contents) == Success(())
    ensures LoadedRecords(fileLength, contents) == count
  {
  }

  // ---------------------------------------------------------------- the imperative side

  /** The caller-owned map read() puts into. */
  class FileTimeIndexMap {
    var entries: map<TsFileID, FileTimeIndex>

    constructor (entries: map<TsFileID, FileTimeIndex>)
      ensures this.entries == entries
    {
      this.entries := entries;
    }

    method Put(key: TsFileID, value: FileTimeIndex)
      modifies this
      ensures entries == old(entries)[key := value]
    {
      entries := entries[key := value];
    }
  }

  /** A DataInputStream over the log file's bytes. */
  class LogInputStream {
    const data: seq<Byte>
    var position: nat

    ghost predicate Valid()
      reads this
    {
      position <= |data|
    }

    constructor Open(data: seq<Byte>)
      ensures Valid() && this.data == data && position == 0
    {
      this.data := data;
      position := 0;
    }

    /** readLong: eight big-endian bytes, or EOF when fewer remain. */
    method ReadLong() returns (r: Result<int, IOError>)
      requires Valid()
      modifies this
      ensures Valid()
      ensures old(position) + LONG_BYTES <= |data| ==>
                r == Success(LongAt(data, old(position))) && position == old(position) + LONG_BYTES
      ensures old(position) + LONG_BYTES > |data| ==> r == Failure(EndOfFile)
    {
      if position + LONG_BYTES > |data| {
        position := |data|;
        return Failure(EndOfFile);
      }
      r := Success(Int64(data[position..position + LONG_BYTES]));
      position := position + LONG_BYTES;
    }
  }

  /**
   * The four readLong calls of one read iteration, in the order version,
   * compaction version, start time, end time; EOF as soon as one of them
   * finds fewer than eight bytes left.
   */
  method ReadLogRecord(logStream: LogInputStream, ghost i: nat) returns (r: Result<LogRecord, IOError>)
    requires logStream.Valid() && logStream.position == 32 * i
    modifies logStream
    ensures logStream.Valid()
    ensures 32 * i + 32 <= |logStream.data| ==>
              r == Success(RecordAt(logStream.data, i)) && logStream.position == 32 * i + 32
    ensures 32 * i + 32 > |logStream.data| ==> r == Failure(EndOfFile)
  {
    var fileVersion := logStream.ReadLong();
    if fileVersion.Failure? { return Failure(fileVersion.error); }
    var compactionVersion := logStream.ReadLong();
    if compactionVersion.Failure? { return Failure(compactionVersion.error); }
    var minStartTime := logStream.ReadLong();
    if minStartTime.Failure? { return Failure(minStartTime.error); }
    var maxEndTime := logStream.ReadLong();
    if maxEndTime.Failure? { return Failure(maxEndTime.error); }
    return Success(LogRecord(fileVersion.value, compactionVersion.value, minStartTime.value, maxEndTime.value));
  }

  class PartitionLogReader {
    /** The file's length when the reader was built. */
    const fileLength: nat
    const dataRegionId: int
    const partitionId: int

    constructor (fileLength: nat, dataRegionId: int, partitionId: int)
      ensures this.fileLength == fileLength && this.dataRegionId == dataRegionId && this.partitionId == partitionId
    {
      this.fileLength := fileLength;
      this.dataRegionId := dataRegionId;
      this.partitionId := partitionId;
    }

    /** The Java constructor: capture the length, parse the region id, or fail with NumberFormatException. */
    static method Open(fileLength: nat, dataRegionId: string, partitionId: int)
      returns (r: Result<PartitionLogReader, NumberFormatException>)
      ensures r.Success? <==> ParseDecimalInt(dataRegionId).Some?
      ensures r.Failure? ==> r.error == NumberFormatException(dataRegionId)
      ensures r.Success? ==>
                && fresh(r.value)
                && r.value.fileLength == fileLength
                && r.value.dataRegionId == ParseDecimalInt(dataRegionId).value
                && r.value.partitionId == partitionId
    {
      var regionId := ParseDecimalInt(dataRegionId);
      if regionId.None? {
        return Failure(NumberFormatException(dataRegionId));
      }
      var reader := new PartitionLogReader(fileLength, regionId.value, partitionId);
      return Success(reader);
    }

    /**
     * read: while fewer than the captured length have been consumed, read a
     * record and put it; `contents` is what the file holds when read opens it.
     */
    method Read(contents: seq<Byte>, fileTimeIndexMap: FileTimeIndexMap) returns (r: Result<(), IOError>)
      modifies fileTimeIndexMap
      ensures r == ReadOutcome(fileLength, contents)
      ensures fileTimeIndexMap.entries ==
                PutAll(old(fileTimeIndexMap.entries), dataRegionId, partitionId,
                       Records(contents, LoadedRecords(fileLength, contents)))
    {
      var logStream := new LogInputStream.Open(contents);
      var readLength: nat := 0;
      ghost var count: nat := 0;
      while readLength < fileLength
        invariant readLength == 32 * count && count <= Iterations(fileLength)
        invariant readLength <= |contents|
        invariant logStream.Valid() && logStream.data == contents && logStream.position == readLength
        invariant fileTimeIndexMap.entries ==
                    PutAll(old(fileTimeIndexMap.entries), dataRegionId, partitionId, Records(contents, count))
        decreases fileLength - readLength
      {
        assert count < Iterations(fileLength);
        if readLength + 32 > |contents| {
          ShortIterationFails(fileLength, contents, count);
        }
        var record := ReadLogRecord(logStream, count);
        if record.Failure? { return Failure(record.error); }
        var tsFileID := TsFileID(dataRegionId, partitionId, record.value.fileVersion, record.value.compactionVersion);
        var fileTimeIndex := FileTimeIndex(record.value.minStartTime, record.value.maxEndTime);
        PutAllStep(old(fileTimeIndexMap.entries), dataRegionId, partitionId, contents, count);
        fileTimeIndexMap.Put(tsFileID, fileTimeIndex);
        readLength := readLength + 32;
        count := count + 1;
      }
      LoopExitSucceeds(fileLength, contents, count);
      return Success(());
    }
  }
}
