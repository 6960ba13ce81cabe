/**
 * The queue-listing aggregator shared by the per-account and the per-user
 * views. Each line of the listing holds `jobid entity state tres nodelist`;
 * a line with at least four fields is classified by its state, its TRES
 * field (`cpu=4,mem=16000M,gres/gpu=1`) is decoded, and the result is folded
 * into a map from the entity in column 2 to its counters.
 */
module QueueListing {
  import opened Wrappers
  import opened Text
  import opened Scan

  /** The six counters kept per entity. */
  datatype JobMetrics = JobMetrics(
    pending: nat,
    running: nat,
    runningCpus: nat,
    runningMem: real,
    runningGpus: nat,
    suspended: nat)

  /** The counters of an entity seen for the first time. */
  const Zero := JobMetrics(0, 0, 0, 0.0, 0, 0)

  // ---------------------------------------------------------------------------
  // State classifier
  // ---------------------------------------------------------------------------

  datatype StateClass = Pending | Running | Suspended | Other

  /** The lower-cased state matched against `^pending`, `^running`, `^suspended`, in that order. */
  function Classify(state: string): StateClass {
    ClassifyLower(Lower(state))
  }

  /** The class of an already lower-cased state. */
  function ClassifyLower(lower: string): StateClass {
    if HasPrefix(lower, "pending") then Pending
    else if HasPrefix(lower, "running") then Running
    else if HasPrefix(lower, "suspended") then Suspended
    else Other
  }

  /**
   * The three prefixes exclude one another, so each class is exactly "the
   * lower-cased state starts with its word", whatever the order of the tests.
   */
  lemma ClassifyByPrefix(state: string)
    ensures Classify(state) == Pending <==> HasPrefix(Lower(state), "pending")
    ensures Classify(state) == Running <==> HasPrefix(Lower(state), "running")
    ensures Classify(state) == Suspended <==> HasPrefix(Lower(state), "suspended")
    ensures Classify(state) == Other <==>
      !HasPrefix(Lower(state), "pending") && !HasPrefix(Lower(state), "running")
      && !HasPrefix(Lower(state), "suspended")
  {
    var lower := Lower(state);
    if HasPrefix(lower, "running") {
      assert lower[0] == 'r';
    } else if HasPrefix(lower, "suspended") {
      assert lower[0] == 's';
    }
  }

  // ---------------------------------------------------------------------------
  // TRES decoder
  // ---------------------------------------------------------------------------

  const CpuTres := Keyed("cpu=", Digit)
  const GpuTres := Keyed("gpu=", Digit)
  const MemTres := KeyedWithUnit("mem=")

  /** An amount of memory in gigabytes. */
  type Gigabytes = m: real | m >= 0.0

  /** The resources of one queue line. */
  datatype Tres = Tres(cpus: nat, gpus: nat, mem: Gigabytes)

  /**
   * The text of the first `cpu=<digits>`, `gpu=<digits>` and
   * `mem=<digits><A-Z>` matches, each read as a number, memory in gigabytes.
   */
  function DecodeTres(tres: string): Tres {
    Tres(NumberIn(FindString(tres, CpuTres)),
         NumberIn(FindString(tres, GpuTres)),
         MemoryIn(FindString(tres, MemTres)))
  }

  /** The first digit run of a matched text as a number; 0 when there is none. */
  function NumberIn(text: string): nat {
    ParseNumber(FindString(text, Number))
  }

  /** The number of a matched `mem=` text, divided by 1000 when the text contains an `M`. */
  function MemoryIn(memString: string): Gigabytes {
    var mem := NumberIn(memString) as real;
    if 'M' in memString then mem / 1000.0 else mem
  }

  /** The digit run that follows a digit-free key is the first number in the matched text. */
  lemma {:induction false} FirstNumberAfterKey(key: string, d: string, rest: string)
    requires forall k :: 0 <= k < |key| ==> !IsDigit(key[k])
    requires |d| > 0 && AllDigits(d)
    requires rest == [] || !IsDigit(rest[0])
    ensures FindString(key + d + rest, Number) == d
  {
    var s := key + d + rest;
    forall j | 0 <= j < |key| ensures MatchAt(s, j, Number).None? {
      assert s[j] == key[j];
    }
    RunLenUnique(s, |key|, Digit, |d|);
    assert MatchAt(s, |key|, Number) == Some(Match(|key|, |key| + |d|, []));
    assert s[|key|..|key| + |d|] == d;
  }

  /** The match of `p` at `i` is the first: no earlier position matches `p`. */
  ghost predicate FirstMatchAt(s: string, p: Pattern, i: nat) {
    i <= |s| && MatchAt(s, i, p).Some? && forall j :: 0 <= j < i ==> MatchAt(s, j, p).None?
  }

  /** The digits of the match at `i` of a `key<digits>` pattern. */
  function DigitsAt(s: string, i: nat, key: string): string
    requires i + |key| <= |s|
  {
    s[i + |key|..i + |key| + RunLen(s, i + |key|, Digit)]
  }

  lemma DigitsAtAreDigits(s: string, i: nat, key: string)
    requires i + |key| <= |s|
    ensures AllDigits(DigitsAt(s, i, key))
  {
    RunLenSpan(s, i + |key|, Digit);
  }

  /** The leftmost `key<digits>` match is the key followed by its digit run. */
  lemma KeyedText(s: string, key: string, i: nat)
    requires FirstMatchAt(s, Keyed(key, Digit), i)
    ensures i + |key| <= |s|
    ensures |DigitsAt(s, i, key)| > 0 && AllDigits(DigitsAt(s, i, key))
    ensures FindString(s, Keyed(key, Digit)) == key + DigitsAt(s, i, key)
  {
    KeyedMatchSpan(s, key, i);
    DigitsAtAreDigits(s, i, key);
    SliceConcat(s, i, i + |key|, i + |key| + RunLen(s, i + |key|, Digit));
  }

  lemma SliceConcat(s: string, i: nat, k: nat, e: nat)
    requires i <= k <= e <= |s|
    ensures s[i..e] == s[i..k] + s[k..e]
  {
  }

  /** The leftmost match of `key<digits>` spans the key and the digit run after it. */
  lemma KeyedMatchSpan(s: string, key: string, i: nat)
    requires FirstMatchAt(s, Keyed(key, Digit), i)
    ensures HasAt(s, i, key) && RunLen(s, i + |key|, Digit) > 0
    ensures FindString(s, Keyed(key, Digit)) == s[i..i + |key| + RunLen(s, i + |key|, Digit)]
  {
    FindFromFirst(s, Keyed(key, Digit), 0, i);
  }

  /** cpus is the number after the first `cpu=` followed by digits. */
  lemma DecodeTresCpus(tres: string, i: nat)
    requires FirstMatchAt(tres, CpuTres, i)
    ensures i + 4 <= |tres|
    ensures AllDigits(DigitsAt(tres, i, "cpu="))
    ensures DecodeTres(tres).cpus == DigitsValue(DigitsAt(tres, i, "cpu="))
  {
    KeyedText(tres, "cpu=", i);
    FirstNumberAfterKey("cpu=", DigitsAt(tres, i, "cpu="), []);
    assert "cpu=" + DigitsAt(tres, i, "cpu=") + [] == "cpu=" + DigitsAt(tres, i, "cpu=");
  }

  /** gpus is the number after the first `gpu=` followed by digits. */
  lemma DecodeTresGpus(tres: string, i: nat)
    requires FirstMatchAt(tres, GpuTres, i)
    ensures i + 4 <= |tres|
    ensures AllDigits(DigitsAt(tres, i, "gpu="))
    ensures DecodeTres(tres).gpus == DigitsValue(DigitsAt(tres, i, "gpu="))
  {
    KeyedText(tres, "gpu=", i);
    FirstNumberAfterKey("gpu=", DigitsAt(tres, i, "gpu="), []);
    assert "gpu=" + DigitsAt(tres, i, "gpu=") + [] == "gpu=" + DigitsAt(tres, i, "gpu=");
  }

  /** Without a `cpu=` or `gpu=` followed by digits, that count is 0. */
  lemma DecodeTresMissing(tres: string)
    ensures (forall j :: 0 <= j <= |tres| ==> MatchAt(tres, j, CpuTres).None?) ==> DecodeTres(tres).cpus == 0
    ensures (forall j :: 0 <= j <= |tres| ==> MatchAt(tres, j, GpuTres).None?) ==> DecodeTres(tres).gpus == 0
    ensures (forall j :: 0 <= j <= |tres| ==> MatchAt(tres, j, MemTres).None?) ==> DecodeTres(tres).mem == 0.0
  {
  }

  /** The leftmost `key<digits><A-Z>` match is the key, its digit run and the unit letter. */
  lemma KeyedUnitText(s: string, key: string, i: nat)
    requires FirstMatchAt(s, KeyedWithUnit(key), i)
    ensures i + |key| <= |s|
    ensures i + |key| + |DigitsAt(s, i, key)| < |s|
    ensures |DigitsAt(s, i, key)| > 0 && AllDigits(DigitsAt(s, i, key))
    ensures !IsDigit(s[i + |key| + |DigitsAt(s, i, key)|])
    ensures FindString(s, KeyedWithUnit(key)) == key + DigitsAt(s, i, key) + [s[i + |key| + |DigitsAt(s, i, key)|]]
  {
    FoundKeyedWithUnit(s, key, i);
    DigitsAtAreDigits(s, i, key);
    SliceConcatLast(s, i, i + |key|, i + |key| + RunLen(s, i + |key|, Digit));
  }

  lemma SliceConcatLast(s: string, i: nat, k: nat, e: nat)
    requires i <= k <= e < |s|
    ensures s[i..e + 1] == s[i..k] + s[k..e] + [s[e]]
  {
  }

  /** The leftmost match of `key<digits><A-Z>` spans the key, the digit run and one letter. */
  lemma FoundKeyedWithUnit(s: string, key: string, i: nat)
    requires FirstMatchAt(s, KeyedWithUnit(key), i)
    ensures HasAt(s, i, key) && RunLen(s, i + |key|, Digit) > 0
    ensures i + |key| + RunLen(s, i + |key|, Digit) < |s|
    ensures FindString(s, KeyedWithUnit(key)) == s[i..i + |key| + RunLen(s, i + |key|, Digit) + 1]
  {
    FindFromFirst(s, KeyedWithUnit(key), 0, i);
  }

  /**
   * mem is the number of the first `mem=<digits><A-Z>`, divided by 1000 when
   * the unit letter is `M` and unscaled for any other letter.
   */
  lemma DecodeTresMem(tres: string, i: nat)
    requires FirstMatchAt(tres, MemTres, i)
    ensures i + 4 <= |tres|
    ensures i + 4 + |DigitsAt(tres, i, "mem=")| < |tres|
    ensures AllDigits(DigitsAt(tres, i, "mem="))
    ensures var d := DigitsAt(tres, i, "mem=");
      var unit := tres[i + 4 + |d|];
      DecodeTres(tres).mem == if unit == 'M' then DigitsValue(d) as real / 1000.0 else DigitsValue(d) as real
  {
    KeyedUnitText(tres, "mem=", i);
    MemoryOfUnit("mem=", DigitsAt(tres, i, "mem="), tres[i + 4 + |DigitsAt(tres, i, "mem=")|]);
  }

  /** The memory of `key<digits><unit>`: megabytes for `M`, gigabytes for any other letter. */
  lemma MemoryOfUnit(key: string, d: string, unit: char)
    requires forall k :: 0 <= k < |key| ==> !IsDigit(key[k])
    requires 'M' !in key
    requires |d| > 0 && AllDigits(d) && !IsDigit(unit)
    ensures MemoryIn(key + d + [unit]) ==
      if unit == 'M' then DigitsValue(d) as real / 1000.0 else DigitsValue(d) as real
  {
    FirstNumberAfterKey(key, d, [unit]);
    UnitLetter(key, d, unit);
  }

  /** In `key<digits><unit>` with no `M` in the key, an `M` can only be the unit. */
  lemma UnitLetter(key: string, d: string, unit: char)
    requires 'M' !in key && AllDigits(d)
    ensures 'M' in key + d + [unit] <==> unit == 'M'
  {
    var t := key + d + [unit];
    forall x | 0 <= x < |t| - 1 ensures t[x] != 'M' {
      if x < |key| {
        assert t[x] == key[x];
      } else {
        assert t[x] == d[x - |key|];
      }
    }
    assert t[|t| - 1] == unit;
  }

  // ---------------------------------------------------------------------------
  // One line
  // ---------------------------------------------------------------------------

  /** What one queue line contributes: its entity, state class and resources. */
  datatype QueueRecord = QueueRecord(entity: string, state: StateClass, tres: Tres)

  /** A line with four or more fields gives a record; any other line is skipped. */
  function ParseLine(line: string): Option<QueueRecord> {
    var fields := Fields(line);
    if |fields| > 3 then Some(QueueRecord(fields[1], Classify(fields[2]), DecodeTres(fields[3])))
    else None
  }

  /** The counters of an entity after one more of its records. */
  function Counted(t: JobMetrics, state: StateClass, tres: Tres): JobMetrics {
    match state
    case Pending => t.(pending := t.pending + 1)
    case Running =>
      t.(running := t.running + 1,
         runningCpus := t.runningCpus + tres.cpus,
         runningGpus := t.runningGpus + tres.gpus,
         runningMem := t.runningMem + tres.mem)
    case Suspended => t.(suspended := t.suspended + 1)
    case Other => t
  }

  function Get(totals: map<string, JobMetrics>, e: string): JobMetrics {
    if e in totals then totals[e] else Zero
  }

  /** Get-or-insert the record's entity, then count the record. */
  function Add(totals: map<string, JobMetrics>, rec: QueueRecord): map<string, JobMetrics> {
    totals[rec.entity := Counted(Get(totals, rec.entity), rec.state, rec.tres)]
  }

  /** The map after one line. */
  function Step(totals: map<string, JobMetrics>, line: string): map<string, JobMetrics> {
    match ParseLine(line)
    case None => totals
    case Some(rec) => Add(totals, rec)
  }

  function Aggregate(lines: seq<string>): map<string, JobMetrics>
    decreases |lines|
  {
    if lines == [] then map[] else Step(Aggregate(lines[..|lines| - 1]), lines[|lines| - 1])
  }

  /** The whole listing, folded from an empty map. */
  function QueueTotals(input: string): map<string, JobMetrics> {
    Aggregate(Lines(input))
  }

  /** A line with three or fewer fields leaves the map as it was. */
  lemma StepSkipsShortLines(totals: map<string, JobMetrics>, line: string)
    requires |Fields(line)| <= 3
    ensures Step(totals, line) == totals
  {
  }

  /** A line with four or more fields is counted as the record of its fields. */
  lemma StepCountsRecord(totals: map<string, JobMetrics>, line: string)
    requires |Fields(line)| > 3
    ensures var f := Fields(line);
      Step(totals, line) == Add(totals, QueueRecord(f[1], Classify(f[2]), DecodeTres(f[3])))
  {
  }

  /**
   * A line with four or more fields gives its column-2 entity an entry, even
   * when its state is not recognised, and changes no other entry.
   */
  lemma StepFrame(totals: map<string, JobMetrics>, line: string)
    requires |Fields(line)| > 3
    ensures Step(totals, line).Keys == totals.Keys + {Fields(line)[1]}
    ensures forall e :: e in totals && e != Fields(line)[1] ==> Step(totals, line)[e] == totals[e]
  {
  }

  /**
   * How a line with four or more fields changes its entity's entry (a new
   * entry counting from all zeros): exactly one of the three job counters
   * goes up by one, or none for an unrecognised state, and only a running
   * line adds its decoded resources to the running sums.
   */
  lemma StepCounters(totals: map<string, JobMetrics>, line: string)
    requires |Fields(line)| > 3
    ensures var f := Fields(line);
      var before := Get(totals, f[1]);
      var after := Step(totals, line)[f[1]];
      var c := Classify(f[2]);
      && after.pending == before.pending + (if c == Pending then 1 else 0)
      && after.running == before.running + (if c == Running then 1 else 0)
      && after.suspended == before.suspended + (if c == Suspended then 1 else 0)
      && (c != Running ==>
            after.runningCpus == before.runningCpus && after.runningGpus == before.runningGpus
            && after.runningMem == before.runningMem)
      && (c == Running ==>
            after.runningCpus == before.runningCpus + DecodeTres(f[3]).cpus
            && after.runningGpus == before.runningGpus + DecodeTres(f[3]).gpus
            && after.runningMem == before.runningMem + DecodeTres(f[3]).mem)
  {
  }

  // ---------------------------------------------------------------------------
  // The aggregate against a per-entity reference
  // ---------------------------------------------------------------------------

  /** The records of the lines that have four or more fields, in line order. */
  function Records(lines: seq<string>): seq<QueueRecord>
    decreases |lines|
  {
    if lines == [] then []
    else
      Records(lines[..|lines| - 1])
      + match ParseLine(lines[|lines| - 1]) case None => [] case Some(rec) => [rec]
  }

  function QueueRecords(input: string): seq<QueueRecord> {
    Records(Lines(input))
  }

  function Entities(recs: seq<QueueRecord>): set<string>
    decreases |recs|
  {
    if recs == [] then {} else Entities(recs[..|recs| - 1]) + {recs[|recs| - 1].entity}
  }

  /** The number of records of entity `e` in state class `c`. */
  function CountState(recs: seq<QueueRecord>, e: string, c: StateClass): nat
    decreases |recs|
  {
    if recs == [] then 0
    else
      var r := recs[|recs| - 1];
      CountState(recs[..|recs| - 1], e, c) + (if r.entity == e && r.state == c then 1 else 0)
  }

  /** The resources of the running records of entity `e`, added up. */
  function RunningCpus(recs: seq<QueueRecord>, e: string): nat
    decreases |recs|
  {
    if recs == [] then 0
    else
      var r := recs[|recs| - 1];
      RunningCpus(recs[..|recs| - 1], e) + (if r.entity == e && r.state == Running then r.tres.cpus else 0)
  }

  function RunningGpus(recs: seq<QueueRecord>, e: string): nat
    decreases |recs|
  {
    if recs == [] then 0
    else
      var r := recs[|recs| - 1];
      RunningGpus(recs[..|recs| - 1], e) + (if r.entity == e && r.state == Running then r.tres.gpus else 0)
  }

  function RunningMem(recs: seq<QueueRecord>, e: string): (m: real)
    ensures m >= 0.0
    decreases |recs|
  {
    if recs == [] then 0.0
    else
      var r := recs[|recs| - 1];
      RunningMem(recs[..|recs| - 1], e) + (if r.entity == e && r.state == Running then r.tres.mem else 0.0)
  }

  /** The counters of entity `e`, each computed on its own from the records. */
  function Tally(recs: seq<QueueRecord>, e: string): JobMetrics {
    JobMetrics(
      CountState(recs, e, Pending),
      CountState(recs, e, Running),
      RunningCpus(recs, e),
      RunningMem(recs, e),
      RunningGpus(recs, e),
      CountState(recs, e, Suspended))
  }

  lemma {:induction false} TallyAbsent(recs: seq<QueueRecord>, e: string)
    requires e !in Entities(recs)
    ensures Tally(recs, e) == Zero
    decreases |recs|
  {
    if recs != [] {
      TallyAbsent(recs[..|recs| - 1], e);
    }
  }

  lemma TallyAppend(recs: seq<QueueRecord>, rec: QueueRecord, e: string)
    ensures Tally(recs + [rec], e) == if rec.entity == e then Counted(Tally(recs, e), rec.state, rec.tres) else Tally(recs, e)
    ensures Entities(recs + [rec]) == Entities(recs) + {rec.entity}
  {
    assert (recs + [rec])[..|recs|] == recs;
  }

  /** Counting one more record keeps the map equal to the tally of the records so far. */
  lemma AddKeepsTally(totals: map<string, JobMetrics>, recs: seq<QueueRecord>, rec: QueueRecord)
    requires totals.Keys == Entities(recs)
    requires forall e :: e in totals ==> totals[e] == Tally(recs, e)
    ensures Add(totals, rec).Keys == Entities(recs + [rec])
    ensures forall e :: e in Add(totals, rec) ==> Add(totals, rec)[e] == Tally(recs + [rec], e)
  {
    if rec.entity !in totals {
      TallyAbsent(recs, rec.entity);
    }
    forall e | e in Add(totals, rec) ensures Add(totals, rec)[e] == Tally(recs + [rec], e) {
      TallyAppend(recs, rec, e);
    }
    TallyAppend(recs, rec, rec.entity);
  }

  /**
   * The map built line by line holds exactly the entities of the records,
   * and for each the counters the records give it: counts of its pending,
   * running and suspended records and sums over its running ones.
   */
  lemma {:induction false} AggregateIsTally(lines: seq<string>)
    ensures Aggregate(lines).Keys == Entities(Records(lines))
    ensures forall e :: e in Aggregate(lines) ==> Aggregate(lines)[e] == Tally(Records(lines), e)
    decreases |lines|
  {
    if lines != [] {
      var pre := lines[..|lines| - 1];
      var last := lines[|lines| - 1];
      AggregateIsTally(pre);
      match ParseLine(last)
      case None =>
        assert Aggregate(lines) == Aggregate(pre);
        assert Records(lines) == Records(pre) + [];
        assert Records(lines) == Records(pre);
      case Some(rec) =>
        assert Aggregate(lines) == Add(Aggregate(pre), rec);
        assert Records(lines) == Records(pre) + [rec];
        AddKeepsTally(Aggregate(pre), Records(pre), rec);
    }
  }

  /** Every running sum of every entity is non-negative. */
  lemma QueueTotalsNonNegative(input: string)
    ensures forall e :: e in QueueTotals(input) ==> QueueTotals(input)[e].runningMem >= 0.0
  {
    AggregateIsTally(Lines(input));
  }

  // ---------------------------------------------------------------------------
  // A worked line
  // ---------------------------------------------------------------------------

  /** The fields of the worked line. */
  const ExampleFields := ["123", "acct1", "RUNNING", ExampleTres, "node01"]

  /** `123 acct1 RUNNING cpu=4,mem=16000M,gpu=0 node01`. */
  const ExampleLine := Unwords(ExampleFields)

  /**
   * A listing made of the single line
   * `123 acct1 RUNNING cpu=4,mem=16000M,gpu=0 node01` counts one running
   * job of `acct1` with 4 cpus, no gpus and 16000 megabytes, that is 16
   * gigabytes.
   */
  lemma RunningLineExample()
    ensures QueueTotals(ExampleLine) == map["acct1" := JobMetrics(0, 1, 4, 16.0, 0, 0)]
  {
    ExampleAreFields();
    UnwordsNoNewline(ExampleFields);
    JoinLinesSplit([ExampleLine]);
    assert Lines(ExampleLine) == [ExampleLine];
    assert Aggregate([ExampleLine]) == Step(map[], ExampleLine) by {
      assert [ExampleLine][..0] == [];
    }
    FieldsUnwords(ExampleFields);
    ExampleState();
    ExampleTresDecoded();
    var rec := QueueRecord("acct1", Running, Tres(4, 0, 16.0));
    assert ParseLine(ExampleLine) == Some(rec);
    ExampleCounted();
    assert Step(map[], ExampleLine) == map[][rec.entity := Counted(Zero, Running, rec.tres)];
  }

  /** The first running job of an entity. */
  lemma ExampleCounted()
    ensures Counted(Zero, Running, Tres(4, 0, 16.0)) == JobMetrics(0, 1, 4, 16.0, 0, 0)
  {
  }

  lemma ExampleAreFields()
    ensures forall k :: 0 <= k < |ExampleFields| ==> IsField(ExampleFields[k])
  {
    forall k | 0 <= k < |ExampleFields| ensures IsField(ExampleFields[k]) {
      var w := ExampleFields[k];
      forall x | 0 <= x < |w| ensures !IsFieldSpace(w[x]) {
        assert w[x] in w;
      }
    }
  }

  /**
   * The state is classified without regard to ASCII case: two states that
   * differ only in upper- against lower-case letters have the same class.
   */
  lemma ClassifyIgnoresAsciiCase(s: string, t: string)
    requires |s| == |t|
    requires forall k :: 0 <= k < |s| ==> s[k] == t[k] || (IsUpper(s[k]) && t[k] as int == s[k] as int + 32)
    ensures Classify(s) == Classify(t)
  {
    assert Lower(s) == Lower(t);
  }

  /** `RUNNING` is a running state. */
  lemma ExampleState()
    ensures Classify("RUNNING") == Running
  {
    var lower := Lower("RUNNING");
    assert lower == "running";
    assert lower[..7] == lower;
    assert lower[0] != "pending"[0];
  }

  /** The TRES field of the worked line. */
  const ExampleTres := "cpu=4,mem=16000M,gpu=0"

  lemma ExampleTresDecoded()
    ensures DecodeTres(ExampleTres) == Tres(4, 0, 16.0)
  {
    ExampleCpus();
    ExampleGpus();
    ExampleMem();
  }

  lemma ExampleCpus()
    ensures DecodeTres(ExampleTres).cpus == 4
  {
    var t := ExampleTres;
    HasAtMiddle("", "cpu=", "4,mem=16000M,gpu=0");
    HasAtMiddle("cpu=", "4", ",mem=16000M,gpu=0");
    DigitRunAt(t, 4, "4");
    assert MatchAt(t, 0, CpuTres).Some?;
    DecodeTresCpus(t, 0);
    assert DigitsAt(t, 0, "cpu=") == "4";
  }

  /** No `gpu=` comes before index 17. */
  lemma ExampleGpuAbsent()
    ensures forall j :: 0 <= j < 17 ==> MatchAt(ExampleTres, j, GpuTres).None?
  {
    ExampleGpuKeyAbsent();
  }

  lemma ExampleGpuKeyAbsent()
    ensures forall j :: 0 <= j < 17 ==> !HasAt(ExampleTres, j, "gpu=")
  {
    var pre := "cpu=4,mem=16000M,";
    assert ExampleTres == pre + "gpu=0";
    AbsentBefore(pre, "gpu=0", "gpu=");
  }

  /** `gpu=0` is written at index 17. */
  lemma ExampleGpuAt()
    ensures HasAt(ExampleTres, 17, "gpu=") && RunLen(ExampleTres, 21, Digit) == 1
    ensures ExampleTres[21..22] == "0"
  {
    var pre := "cpu=4,mem=16000M,";
    HasAtMiddle(pre, "gpu=", "0");
    HasAtMiddle(pre + "gpu=", "0", "");
    assert pre + "gpu=" + "0" + "" == ExampleTres;
    DigitRunAt(ExampleTres, 21, "0");
  }

  lemma ExampleGpus()
    ensures DecodeTres(ExampleTres).gpus == 0
  {
    ExampleGpuAbsent();
    ExampleGpuAt();
    assert MatchAt(ExampleTres, 17, GpuTres).Some?;
    DecodeTresGpus(ExampleTres, 17);
    assert DigitsAt(ExampleTres, 17, "gpu=") == "0";
  }

  /** No `mem=` comes before index 6. */
  lemma ExampleMemAbsent()
    ensures forall j :: 0 <= j < 6 ==> MatchAt(ExampleTres, j, MemTres).None?
  {
    ExampleMemKeyAbsent();
  }

  lemma ExampleMemKeyAbsent()
    ensures forall j :: 0 <= j < 6 ==> !HasAt(ExampleTres, j, "mem=")
  {
    var pre := "cpu=4,";
    assert ExampleTres == pre + "mem=16000M,gpu=0";
    AbsentBefore(pre, "mem=16000M,gpu=0", "mem=");
  }

  /** `mem=16000M` is written at index 6. */
  lemma ExampleMemAt()
    ensures HasAt(ExampleTres, 6, "mem=") && RunLen(ExampleTres, 10, Digit) == 5
    ensures ExampleTres[10..15] == "16000" && ExampleTres[15] == 'M'
  {
    var pre := "cpu=4,";
    HasAtMiddle(pre, "mem=", "16000M,gpu=0");
    HasAtMiddle(pre + "mem=", "16000", "M,gpu=0");
    assert pre + "mem=" + "16000" + "M,gpu=0" == ExampleTres;
    DigitRunAt(ExampleTres, 10, "16000");
  }

  lemma ExampleMem()
    ensures DecodeTres(ExampleTres).mem == 16.0
  {
    ExampleMemAbsent();
    ExampleMemAt();
    assert MatchAt(ExampleTres, 6, MemTres).Some?;
    DecodeTresMem(ExampleTres, 6);
    assert DigitsAt(ExampleTres, 6, "mem=") == "16000";
    ExampleDigits();
  }

  lemma ExampleDigits()
    ensures DigitsValue("16000") == 16000
  {
    assert "" + ['1'] == "1";
    DigitsAppend("", '1');
    assert "1" + ['6'] == "16";
    DigitsAppend("1", '6');
    assert "16" + ['0'] == "160";
    DigitsAppend("16", '0');
    assert "160" + ['0'] == "1600";
    DigitsAppend("160", '0');
    assert "1600" + ['0'] == "16000";
    DigitsAppend("1600", '0');
  }

  // ---------------------------------------------------------------------------
  // The parser
  // ---------------------------------------------------------------------------

  /**
   * The loop of `ParseAccountsMetrics` / `ParseUsersMetrics`: a fresh map,
   * then every line of the listing counted in order.
   */
  method ParseQueueMetrics(input: string) returns (totals: map<string, JobMetrics>)
    ensures totals == QueueTotals(input)
  {
    totals := map[];
    var lines := Lines(input);
    var i := 0;
    while i < |lines|
      invariant 0 <= i <= |lines|
      invariant totals == Aggregate(lines[..i])
    {
      totals := CountLine(totals, lines[i]);
      assert lines[..i + 1][..i] == lines[..i];
      i := i + 1;
    }
    assert lines[..|lines|] == lines;
  }

  /**
   * The body of that loop: a line with four or more fields has its state
   * lower-cased and its TRES field decoded, and is counted for the entity in
   * its second column; any other line is skipped.
   */
  method CountLine(totals: map<string, JobMetrics>, line: string) returns (updated: map<string, JobMetrics>)
    ensures updated == Step(totals, line)
  {
    var fields := Fields(line);
    if |fields| > 3 {
      var state := Lower(fields[2]);
      var tres := DecodeTres(fields[3]);
      updated := CountEntity(totals, fields[1], state, tres);
      StepCountsRecord(totals, line);
    } else {
      updated := totals;
      StepSkipsShortLines(totals, line);
    }
  }

  /** Get-or-insert of the entity's counters, then the count of its job. */
  method CountEntity(totals: map<string, JobMetrics>, entity: string, state: string, tres: Tres)
    returns (updated: map<string, JobMetrics>)
    ensures updated == Add(totals, QueueRecord(entity, ClassifyLower(state), tres))
  {
    updated := totals;
    if entity !in updated {
      updated := updated[entity := Zero];
    }
    var counted := CountJob(updated[entity], state, tres);
    updated := updated[entity := counted];
  }

  /**
   * The `switch` on the lower-cased state: the first of `^pending`,
   * `^running`, `^suspended` that matches picks the counter to increment,
   * and only a running job adds its resources to the running sums.
   */
  method CountJob(t: JobMetrics, state: string, tres: Tres) returns (counted: JobMetrics)
    ensures counted == Counted(t, ClassifyLower(state), tres)
  {
    counted := t;
    if HasPrefix(state, "pending") {
      counted := counted.(pending := counted.pending + 1);
    } else if HasPrefix(state, "running") {
      counted := counted.(running := counted.running + 1);
      counted := counted.(runningCpus := counted.runningCpus + tres.cpus);
      counted := counted.(runningGpus := counted.runningGpus + tres.gpus);
      counted := counted.(runningMem := counted.runningMem + tres.mem);
    } else if HasPrefix(state, "suspended") {
      counted := counted.(suspended := counted.suspended + 1);
    }
  }
}
