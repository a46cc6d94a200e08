/**
 * `high_res_data_analysis/read_high_res_data.py`: routing of EDR logger files
 * to their measurement channel, per-record unit conversion of EDR currents and
 * voltages, and the instantaneous and aggregated power of Pico logs.
 *
 * Reading CSV files is I/O: a file's parsed rows are supplied by the caller
 * (`currentRows`, `voltageRows`), its decoded second-resolution time included.
 */
module ReadHighResData {
  import opened Wrappers
  import opened Series

  /** The seven buckets of `read_edr_data`: three voltage phases, four current conductors. */
  datatype Channel = VoltageL1 | VoltageL2 | VoltageL3 | CurrentL1 | CurrentL2 | CurrentL3 | CurrentN

  datatype Phase = L1 | L2 | L3 | N

  const Channels: set<Channel> :=
    {VoltageL1, VoltageL2, VoltageL3, CurrentL1, CurrentL2, CurrentL3, CurrentN}

  lemma ChannelListed(c: Channel)
    ensures c in Channels
  {
  }

  /** The three filename characters that select a channel. */
  function Tag(c: Channel): string
  {
    match c
    case VoltageL1 => "_L1"
    case VoltageL2 => "_L2"
    case VoltageL3 => "_L3"
    case CurrentL1 => "L4I"
    case CurrentL2 => "L5I"
    case CurrentL3 => "L6I"
    case CurrentN => "L7I"
  }

  /** Python's `filename[-7:-4]`: negative bounds count from the end and clamp at 0. */
  function PhaseTag(filename: string): (tag: string)
    ensures |filename| >= 7 ==> tag == filename[|filename| - 7..|filename| - 4]
    ensures |filename| < 7 ==> |tag| < 3
  {
    var n := |filename|;
    var lo := if n >= 7 then n - 7 else 0;
    var hi := if n >= 4 then n - 4 else 0;
    filename[lo..hi]
  }

  /** The channel a file is routed to; `None` is the "invalid filename format" branch. */
  function Classify(filename: string): (c: Option<Channel>)
    ensures c.Some? ==> |filename| >= 7 && PhaseTag(filename) == Tag(c.value)
    ensures c.None? ==> forall ch :: PhaseTag(filename) != Tag(ch)
  {
    var tag := PhaseTag(filename);
    if tag == "_L1" then Some(VoltageL1)
    else if tag == "_L2" then Some(VoltageL2)
    else if tag == "_L3" then Some(VoltageL3)
    else if tag == "L4I" then Some(CurrentL1)
    else if tag == "L5I" then Some(CurrentL2)
    else if tag == "L6I" then Some(CurrentL3)
    else if tag == "L7I" then Some(CurrentN)
    else None
  }

  /** A file named `<anything><tag><4-character extension>` is routed to the tag's channel. */
  lemma ClassifyTagged(prefix: string, c: Channel, ext: string)
    requires |ext| == 4
    ensures Classify(prefix + Tag(c) + ext) == Some(c)
  {
    var f := prefix + Tag(c) + ext;
    assert f[|f| - 7..|f| - 4] == Tag(c);
  }

  /** The files of one channel, in listing order. */
  function Bucket(files: seq<string>, c: Channel): seq<string>
  {
    if |files| == 0 then []
    else
      var last := files[|files| - 1];
      Bucket(files[..|files| - 1], c) + (if Classify(last) == Some(c) then [last] else [])
  }

  /** The files reported as having an invalid filename format, in listing order. */
  function Unrouted(files: seq<string>): seq<string>
  {
    if |files| == 0 then []
    else
      var last := files[|files| - 1];
      Unrouted(files[..|files| - 1]) + (if Classify(last).None? then [last] else [])
  }

  /** A file is in a bucket exactly when it is listed and its name selects that channel. */
  lemma {:induction false} BucketMembers(files: seq<string>, c: Channel, f: string)
    ensures f in Bucket(files, c) <==> f in files && Classify(f) == Some(c)
  {
    if |files| > 0 {
      BucketMembers(files[..|files| - 1], c, f);
      assert files == files[..|files| - 1] + [files[|files| - 1]];
    }
  }

  function BucketSizes(files: seq<string>): nat
  {
    |Bucket(files, VoltageL1)| + |Bucket(files, VoltageL2)| + |Bucket(files, VoltageL3)|
    + |Bucket(files, CurrentL1)| + |Bucket(files, CurrentL2)| + |Bucket(files, CurrentL3)|
    + |Bucket(files, CurrentN)|
  }

  /** Every listed file joins exactly one bucket or the invalid list, never two. */
  lemma {:induction false} EachFileRoutedOnce(files: seq<string>)
    ensures BucketSizes(files) + |Unrouted(files)| == |files|
  {
    if |files| > 0 {
      EachFileRoutedOnce(files[..|files| - 1]);
    }
  }

  lemma BucketStep(files: seq<string>, i: nat, c: Channel)
    requires i < |files|
    ensures Bucket(files[..i + 1], c) ==
              Bucket(files[..i], c) + (if Classify(files[i]) == Some(c) then [files[i]] else [])
    ensures Unrouted(files[..i + 1]) ==
              Unrouted(files[..i]) + (if Classify(files[i]).None? then [files[i]] else [])
  {
    assert files[..i + 1][..i] == files[..i];
  }

  /** `read_edr_data` lines 41-67: walk the listing and append each file to its bucket. */
  method DispatchFiles(files: seq<string>) returns (buckets: map<Channel, seq<string>>, invalid: seq<string>)
    ensures buckets.Keys == Channels
    ensures forall c :: c in buckets ==> buckets[c] == Bucket(files, c)
    ensures invalid == Unrouted(files)
  {
    buckets := map c | c in Channels :: [];
    invalid := [];
    var i := 0;
    while i < |files|
      invariant 0 <= i <= |files|
      invariant buckets.Keys == Channels
      invariant forall c :: c in buckets ==> buckets[c] == Bucket(files[..i], c)
      invariant invalid == Unrouted(files[..i])
    {
      var filename := files[i];
      var channel := Classify(filename);
      forall c | c in Channels
        ensures Bucket(files[..i + 1], c) == Bucket(files[..i], c) + (if channel == Some(c) then [filename] else [])
      {
        BucketStep(files, i, c);
      }
      BucketStep(files, i, CurrentN);
      if channel.Some? {
        ChannelListed(channel.value);
        buckets := buckets[channel.value := buckets[channel.value] + [filename]];
      } else {
        invalid := invalid + [filename];
      }
      i := i + 1;
    }
    assert files[..i] == files;
  }

  // ---------------------------------------------------------------------------
  // Records

  /** One row of an EDR current file; `None` is an empty CSV field. */
  datatype RawCurrentRow = RawCurrentRow(
    time: Option<int>,       // 'Time', decoded to whole seconds
    ms: Option<int>,         // 'ms+-'
    powerP: Option<real>,    // 'PowerP'
    powerQ: Option<real>,    // 'PowerQ'
    eff: Option<real>,       // 'Effektivwert'
    amp: Option<real>,       // 'Amplitude'
    thd: Option<real>)       // 'THD'

  /** One row of an EDR voltage file. */
  datatype RawVoltageRow = RawVoltageRow(
    time: Option<int>,
    ms: Option<int>,
    f50: Option<real>,       // deviation from 50 Hz in mHz
    eff: Option<real>,
    amp: Option<real>,
    thd: Option<real>)

  /** A converted current row: time in milliseconds and the columns P, Q, I_eff, I_amp, I_thd. */
  datatype CurrentSample = CurrentSample(timeMs: int, p: real, q: real, iEff: real, iAmp: real, iThd: real)

  /** A converted voltage row: time in milliseconds and freq, U_eff, U_amp, U_thd. */
  datatype VoltageSample = VoltageSample(timeMs: int, freq: real, uEff: real, uAmp: real, uThd: real)

  predicate CurrentComplete(r: RawCurrentRow)
  {
    r.time.Some? && r.ms.Some? && r.powerP.Some? && r.powerQ.Some? && r.eff.Some? && r.amp.Some? && r.thd.Some?
  }

  predicate VoltageComplete(r: RawVoltageRow)
  {
    r.time.Some? && r.ms.Some? && r.f50.Some? && r.eff.Some? && r.amp.Some? && r.thd.Some?
  }

  /** Time of a record: the second-resolution time plus the 'ms+-' offset. */
  function TimestampMs(seconds: int, ms: int): int
  {
    seconds * 1000 + ms
  }

  /**
   * Rogowski-coil correction: currents and powers divided by the loop count,
   * THD unchanged.  A zero factor (numpy's division by zero) is not modelled.
   */
  function ConvertCurrent(r: RawCurrentRow, corr: real): (s: CurrentSample)
    requires CurrentComplete(r) && corr != 0.0
    ensures s.timeMs == TimestampMs(r.time.value, r.ms.value)
    ensures s.p * corr == r.powerP.value && s.q * corr == r.powerQ.value
    ensures s.iEff * corr == r.eff.value && s.iAmp * corr == r.amp.value
    ensures s.iThd == r.thd.value
  {
    CurrentSample(TimestampMs(r.time.value, r.ms.value),
      r.powerP.value / corr, r.powerQ.value / corr,
      r.eff.value / corr, r.amp.value / corr, r.thd.value)
  }

  /** Frequency in Hz from the logged deviation in mHz. */
  function FrequencyHz(deviationMilliHz: real): (f: real)
    ensures (f - 50.0) * 1000.0 == deviationMilliHz
  {
    50.0 + deviationMilliHz / 1000.0
  }

  function ConvertVoltage(r: RawVoltageRow): (s: VoltageSample)
    requires VoltageComplete(r)
    ensures s.timeMs == TimestampMs(r.time.value, r.ms.value)
    ensures (s.freq - 50.0) * 1000.0 == r.f50.value
    ensures s.uEff == r.eff.value && s.uAmp == r.amp.value && s.uThd == r.thd.value
  {
    VoltageSample(TimestampMs(r.time.value, r.ms.value), FrequencyHz(r.f50.value),
      r.eff.value, r.amp.value, r.thd.value)
  }

  /** `dropna` then conversion, row order kept. */
  function CleanCurrents(rows: seq<RawCurrentRow>, corr: real): (r: seq<CurrentSample>)
    requires corr != 0.0
    ensures |r| <= |rows|
  {
    if |rows| == 0 then []
    else
      var last := rows[|rows| - 1];
      CleanCurrents(rows[..|rows| - 1], corr) + (if CurrentComplete(last) then [ConvertCurrent(last, corr)] else [])
  }

  /** `dropna` then conversion of the voltage rows, row order kept. */
  function CleanVoltages(rows: seq<RawVoltageRow>): (r: seq<VoltageSample>)
    ensures |r| <= |rows|
  {
    if |rows| == 0 then []
    else
      var last := rows[|rows| - 1];
      CleanVoltages(rows[..|rows| - 1]) + (if VoltageComplete(last) then [ConvertVoltage(last)] else [])
  }

  /** A complete row survives `dropna` as exactly its converted sample; an incomplete row leaves no trace. */
  lemma {:induction false} CleanCurrentsMembers(rows: seq<RawCurrentRow>, corr: real, s: CurrentSample)
    requires corr != 0.0
    ensures s in CleanCurrents(rows, corr) <==>
              exists k :: 0 <= k < |rows| && CurrentComplete(rows[k]) && ConvertCurrent(rows[k], corr) == s
  {
    if |rows| > 0 {
      var init := rows[..|rows| - 1];
      CleanCurrentsMembers(init, corr, s);
      if s in CleanCurrents(rows, corr) && s !in CleanCurrents(init, corr) {
        assert CurrentComplete(rows[|rows| - 1]) && ConvertCurrent(rows[|rows| - 1], corr) == s;
      }
      if exists k :: 0 <= k < |rows| && CurrentComplete(rows[k]) && ConvertCurrent(rows[k], corr) == s {
        var k :| 0 <= k < |rows| && CurrentComplete(rows[k]) && ConvertCurrent(rows[k], corr) == s;
        if k < |rows| - 1 {
          assert init[k] == rows[k];
        }
      }
    }
  }

  /** A complete voltage row survives `dropna` as exactly its converted sample; an incomplete row leaves no trace. */
  lemma {:induction false} CleanVoltagesMembers(rows: seq<RawVoltageRow>, s: VoltageSample)
    ensures s in CleanVoltages(rows) <==>
              exists k :: 0 <= k < |rows| && VoltageComplete(rows[k]) && ConvertVoltage(rows[k]) == s
  {
    if |rows| > 0 {
      var init := rows[..|rows| - 1];
      CleanVoltagesMembers(init, s);
      if s in CleanVoltages(rows) && s !in CleanVoltages(init) {
        assert VoltageComplete(rows[|rows| - 1]) && ConvertVoltage(rows[|rows| - 1]) == s;
      }
      if exists k :: 0 <= k < |rows| && VoltageComplete(rows[k]) && ConvertVoltage(rows[k]) == s {
        var k :| 0 <= k < |rows| && VoltageComplete(rows[k]) && ConvertVoltage(rows[k]) == s;
        if k < |rows| - 1 {
          assert init[k] == rows[k];
        }
      }
    }
  }

  // ---------------------------------------------------------------------------
  // Sorting by time (pandas `sort_index`)

  predicate SortedBy<T>(s: seq<T>, key: T -> int)
  {
    forall i, j :: 0 <= i < j < |s| ==> key(s[i]) <= key(s[j])
  }

  function InsertBy<T>(x: T, s: seq<T>, key: T -> int): seq<T>
  {
    if |s| == 0 then [x]
    else if key(x) <= key(s[0]) then [x] + s
    else [s[0]] + InsertBy(x, s[1..], key)
  }

  /** Inserting adds exactly the one element. */
  lemma {:induction false} InsertByPermutes<T>(x: T, s: seq<T>, key: T -> int)
    ensures multiset(InsertBy(x, s, key)) == multiset(s) + multiset{x}
  {
    if |s| > 0 && key(x) > key(s[0]) {
      InsertByPermutes(x, s[1..], key);
      assert s == [s[0]] + s[1..];
    }
  }

  /** A lower bound of `x` and of every element of `s` bounds every element after insertion. */
  lemma {:induction false} InsertByBounded<T>(x: T, s: seq<T>, key: T -> int, b: int)
    requires b <= key(x) && forall k :: 0 <= k < |s| ==> b <= key(s[k])
    ensures forall k :: 0 <= k < |InsertBy(x, s, key)| ==> b <= key(InsertBy(x, s, key)[k])
  {
    if |s| > 0 && key(x) > key(s[0]) {
      InsertByBounded(x, s[1..], key, b);
    }
  }

  /** Inserting into an ordered sequence keeps it ordered. */
  lemma {:induction false} InsertBySorted<T>(x: T, s: seq<T>, key: T -> int)
    requires SortedBy(s, key)
    ensures SortedBy(InsertBy(x, s, key), key)
  {
    if |s| > 0 && key(x) > key(s[0]) {
      var rest := InsertBy(x, s[1..], key);
      InsertBySorted(x, s[1..], key);
      InsertByBounded(x, s[1..], key, key(s[0]));
      var r := [s[0]] + rest;
      assert InsertBy(x, s, key) == r;
      forall i, j | 0 <= i < j < |r| ensures key(r[i]) <= key(r[j]) {
        assert r[j] == rest[j - 1];
        if i > 0 {
          assert r[i] == rest[i - 1];
        }
      }
    }
  }

  /** Sorting: the result is ordered by `key` and is a permutation of the input. */
  function SortBy<T>(s: seq<T>, key: T -> int): (r: seq<T>)
    ensures SortedBy(r, key)
    ensures multiset(r) == multiset(s)
  {
    if |s| == 0 then []
    else
      var sorted := SortBy(s[1..], key);
      InsertBySorted(s[0], sorted, key);
      InsertIntoSortedTail(s, sorted, key);
      InsertBy(s[0], sorted, key)
  }

  /** Inserting the head into a permutation of the tail gives a permutation of the whole. */
  lemma InsertIntoSortedTail<T>(s: seq<T>, sorted: seq<T>, key: T -> int)
    requires |s| > 0 && multiset(sorted) == multiset(s[1..])
    ensures multiset(InsertBy(s[0], sorted, key)) == multiset(s)
  {
    InsertByPermutes(s[0], sorted, key);
    assert s == [s[0]] + s[1..];
  }

  // ---------------------------------------------------------------------------
  // read_edr_data

  datatype EdrError = NoObjectsToConcatenate(channel: Channel)

  /** Per-phase tables: currents for L1, L2, L3 and N, voltages for L1, L2, L3. */
  datatype EdrData = EdrData(currents: map<Phase, seq<CurrentSample>>, voltages: map<Phase, seq<VoltageSample>>)


  /** The channel whose empty bucket makes `pd.concat` raise first: currents, then voltages. */
  function FirstEmpty(buckets: map<Channel, seq<string>>): (r: Option<Channel>)
    requires buckets.Keys == Channels
    ensures r.None? <==> forall c :: c in buckets ==> |buckets[c]| > 0
    ensures r.Some? ==> r.value in buckets && |buckets[r.value]| == 0
  {
    if |buckets[CurrentL1]| == 0 then Some(CurrentL1)
    else if |buckets[CurrentL2]| == 0 then Some(CurrentL2)
    else if |buckets[CurrentL3]| == 0 then Some(CurrentL3)
    else if |buckets[CurrentN]| == 0 then Some(CurrentN)
    else if |buckets[VoltageL1]| == 0 then Some(VoltageL1)
    else if |buckets[VoltageL2]| == 0 then Some(VoltageL2)
    else if |buckets[VoltageL3]| == 0 then Some(VoltageL3)
    else None
  }

  function ConcatCurrentRows(files: seq<string>, currentRows: string -> seq<RawCurrentRow>): seq<RawCurrentRow>
  {
    if |files| == 0 then [] else ConcatCurrentRows(files[..|files| - 1], currentRows) + currentRows(files[|files| - 1])
  }

  function ConcatVoltageRows(files: seq<string>, voltageRows: string -> seq<RawVoltageRow>): seq<RawVoltageRow>
  {
    if |files| == 0 then [] else ConcatVoltageRows(files[..|files| - 1], voltageRows) + voltageRows(files[|files| - 1])
  }

  function CurrentTime(s: CurrentSample): int { s.timeMs }
  function VoltageTime(s: VoltageSample): int { s.timeMs }

  /** One current phase: concatenate its files, drop incomplete rows, convert, sort by time. */
  function CurrentTable(files: seq<string>, currentRows: string -> seq<RawCurrentRow>, corr: real): seq<CurrentSample>
    requires corr != 0.0
  {
    SortBy(CleanCurrents(ConcatCurrentRows(files, currentRows), corr), CurrentTime)
  }

  function VoltageTable(files: seq<string>, voltageRows: string -> seq<RawVoltageRow>): seq<VoltageSample>
  {
    SortBy(CleanVoltages(ConcatVoltageRows(files, voltageRows)), VoltageTime)
  }

  /** The tables `read_edr_data` returns when every channel has files (the join of voltages onto currents aside). */
  function EdrTables(files: seq<string>, currentRows: string -> seq<RawCurrentRow>,
                     voltageRows: string -> seq<RawVoltageRow>, corr: real): (d: EdrData)
    requires corr != 0.0
    ensures d.currents.Keys == {L1, L2, L3, N} && d.voltages.Keys == {L1, L2, L3}
  {
    EdrData(CurrentTables(files, currentRows, corr), VoltageTables(files, voltageRows))
  }

  /** One current table per conductor, from that conductor's files. */
  function CurrentTables(files: seq<string>, currentRows: string -> seq<RawCurrentRow>, corr: real): (m: map<Phase, seq<CurrentSample>>)
    requires corr != 0.0
    ensures m.Keys == {L1, L2, L3, N}
  {
    map[L1 := CurrentTable(Bucket(files, CurrentL1), currentRows, corr),
        L2 := CurrentTable(Bucket(files, CurrentL2), currentRows, corr),
        L3 := CurrentTable(Bucket(files, CurrentL3), currentRows, corr),
        N := CurrentTable(Bucket(files, CurrentN), currentRows, corr)]
  }

  /** One voltage table per phase, from that phase's files. */
  function VoltageTables(files: seq<string>, voltageRows: string -> seq<RawVoltageRow>): (m: map<Phase, seq<VoltageSample>>)
    ensures m.Keys == {L1, L2, L3}
  {
    map[L1 := VoltageTable(Bucket(files, VoltageL1), voltageRows),
        L2 := VoltageTable(Bucket(files, VoltageL2), voltageRows),
        L3 := VoltageTable(Bucket(files, VoltageL3), voltageRows)]
  }

  /**
   * `read_edr_data`: route the listed files, then build one time-sorted table per
   * current conductor and per voltage phase.  Fails as `pd.concat([])` does when a
   * channel received no file, naming the first such channel in the order the
   * source concatenates (currents L1, L2, L3, N, then voltages L1, L2, L3).
   */
  method ReadEdrData(files: seq<string>, currentRows: string -> seq<RawCurrentRow>,
                     voltageRows: string -> seq<RawVoltageRow>, corr: real)
    returns (r: Result<EdrData, EdrError>)
    requires corr != 0.0
    ensures r.Failure? <==> exists c :: c in Channels && |Bucket(files, c)| == 0
    ensures r.Failure? ==> |Bucket(files, r.error.channel)| == 0
    ensures r.Success? ==> r.value == EdrTables(files, currentRows, voltageRows, corr)
  {
    var buckets, invalid := DispatchFiles(files);
    var empty := FirstEmpty(buckets);
    if empty.Some? {
      ChannelListed(empty.value);
      return Failure(NoObjectsToConcatenate(empty.value));
    }
    forall c | c in Channels ensures |Bucket(files, c)| > 0 {
      assert c in buckets;
    }
    var currents := map[
      L1 := CurrentTable(buckets[CurrentL1], currentRows, corr),
      L2 := CurrentTable(buckets[CurrentL2], currentRows, corr),
      L3 := CurrentTable(buckets[CurrentL3], currentRows, corr),
      N := CurrentTable(buckets[CurrentN], currentRows, corr)];
    var voltages := map[
      L1 := VoltageTable(buckets[VoltageL1], voltageRows),
      L2 := VoltageTable(buckets[VoltageL2], voltageRows),
      L3 := VoltageTable(buckets[VoltageL3], voltageRows)];
    r := Success(EdrData(currents, voltages));
  }

  // ---------------------------------------------------------------------------
  // read_pico_data

  /** One Pico log line: averaged currents and voltages of the three phases and the neutral current. */
  datatype PicoRow = PicoRow(i1: real, u1: real, i2: real, u2: real, i3: real, u3: real, iN: real)

  /** A phase sample with its instantaneous power; the neutral conductor has none. */
  datatype PhaseSample = PhaseSample(i: real, u: real, p: real)

  datatype PicoData = PicoData(l1: seq<PhaseSample>, l2: seq<PhaseSample>, l3: seq<PhaseSample>, n: seq<real>)

  function Sample(i: real, u: real): (s: PhaseSample)
    ensures s.i == i && s.u == u && s.p == u * i
  {
    PhaseSample(i, u, u * i)
  }

  /** Lines 145-182: split the log per phase and add `P = U * I` for L1 to L3 only. */
  function InstantaneousPower(rows: seq<PicoRow>): (d: PicoData)
    ensures |d.l1| == |d.l2| == |d.l3| == |d.n| == |rows|
    ensures forall k :: 0 <= k < |rows| ==>
      && d.l1[k] == Sample(rows[k].i1, rows[k].u1)
      && d.l2[k] == Sample(rows[k].i2, rows[k].u2)
      && d.l3[k] == Sample(rows[k].i3, rows[k].u3)
      && d.n[k] == rows[k].iN
  {
    PicoData(
      seq(|rows|, k requires 0 <= k < |rows| => Sample(rows[k].i1, rows[k].u1)),
      seq(|rows|, k requires 0 <= k < |rows| => Sample(rows[k].i2, rows[k].u2)),
      seq(|rows|, k requires 0 <= k < |rows| => Sample(rows[k].i3, rows[k].u3)),
      seq(|rows|, k requires 0 <= k < |rows| => rows[k].iN))
  }

  function Powers(w: seq<PhaseSample>): (ps: seq<real>)
    ensures |ps| == |w| && forall k :: 0 <= k < |w| ==> ps[k] == w[k].p
  {
    seq(|w|, k requires 0 <= k < |w| => w[k].p)
  }

  /** One aggregation interval of a phase: RMS current and voltage, delivered power, apparent power. */
  datatype AggRow = AggRow(iEff: real, uEff: real, p: real, s: real)

  /**
   * Lines 189-195 for one resampling interval: P is the negated mean of the
   * instantaneous powers and S = I_eff * U_eff.  The RMS values (`np.std`) are
   * supplied; an empty interval is a NaN row.
   */
  function AggregateInterval(w: seq<PhaseSample>, iEff: real, uEff: real): (r: Option<AggRow>)
    ensures r.Some? <==> |w| > 0
    ensures r.Some? ==> r.value.s == iEff * uEff && r.value.iEff == iEff && r.value.uEff == uEff
    ensures r.Some? ==> r.value.p * (|w| as real) == -Sum(Powers(w))
  {
    if |w| == 0 then None
    else
      NegatedMeanTimesCount(Powers(w));
      Some(AggRow(iEff, uEff, -Mean(Powers(w)), iEff * uEff))
  }

  /** The negated mean times the number of samples is the negated sum. */
  lemma NegatedMeanTimesCount(s: seq<real>)
    requires |s| > 0
    ensures -Mean(s) * (|s| as real) == -Sum(s)
  {
    var n := |s| as real;
    assert Mean(s) * n == Sum(s);
  }

  lemma MeanOfNonPositive(s: seq<real>)
    requires |s| > 0 && forall k :: 0 <= k < |s| ==> s[k] <= 0.0
    ensures Mean(s) <= 0.0
  {
    SumNonPositive(s);
    QuotientNonPositive(Sum(s), |s| as real);
  }

  lemma QuotientNonPositive(a: real, d: real)
    requires a <= 0.0 && d > 0.0
    ensures a / d <= 0.0
  {
  }

  lemma {:induction false} SumBetween(s: seq<real>, lo: real, hi: real)
    requires forall k :: 0 <= k < |s| ==> lo <= s[k] <= hi
    ensures (|s| as real) * lo <= Sum(s) <= (|s| as real) * hi
  {
    if |s| > 0 {
      SumBetween(s[..|s| - 1], lo, hi);
      assert (|s| as real) * lo == ((|s| - 1) as real) * lo + lo;
      assert (|s| as real) * hi == ((|s| - 1) as real) * hi + hi;
    }
  }

  lemma QuotientBetween(a: real, d: real, lo: real, hi: real)
    requires d > 0.0 && d * lo <= a <= d * hi
    ensures lo <= a / d <= hi
  {
  }

  /** With the consumer sign convention (every U*I <= 0), the aggregated P is delivered power, hence >= 0. */
  lemma DeliveredPowerNonNegative(w: seq<PhaseSample>, iEff: real, uEff: real)
    requires |w| > 0 && forall k :: 0 <= k < |w| ==> w[k].p <= 0.0
    ensures AggregateInterval(w, iEff, uEff).value.p >= 0.0
  {
    MeanOfNonPositive(Powers(w));
  }

  /** The aggregated P lies between the smallest and largest negated instantaneous power of the interval. */
  lemma AggregatedPowerBetweenExtremes(w: seq<PhaseSample>, iEff: real, uEff: real)
    requires |w| > 0
    ensures -Max(Powers(w)) <= AggregateInterval(w, iEff, uEff).value.p <= -Min(Powers(w))
  {
    var ps := Powers(w);
    SumBetween(ps, Min(ps), Max(ps));
    QuotientBetween(Sum(ps), |ps| as real, Min(ps), Max(ps));
  }
}
