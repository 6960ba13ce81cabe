/**
 * Per-job, per-host records from the one-line-per-job listing of running
 * jobs (`scontrol show job -d -o`). Every line longer than ten bytes must
 * carry a job id, a user, an account and a state; each of its allocation
 * groups (`Nodes=... CPU_IDs=... Mem=... GRES=...`) gives its cpus, gpus and
 * memory to one record per host of the group, the group's node list being
 * expanded to host names by an external command when it is a bracketed range.
 */
module Jobs {
  import opened Wrappers
  import opened Text
  import opened Scan

  // ---------------------------------------------------------------------------
  // The patterns
  // ---------------------------------------------------------------------------

  const JobIdTag := Keyed("JobId=", Digit)               // JobId=([0-9]+)
  const UserTag := KeyedBeforeParen("UserId=")           // UserId=([\w]+)\(
  const AccountTag := Keyed("Account=", NotRegexSpace)   // Account=([^\s]+)
  const StateTag := Keyed("JobState=", NotRegexSpace)    // JobState=([^\s]+)
  const NodeString := Allocation                         // \sNodes.*?GRES.*?\s
  const NodeTag := SpaceKeyed("Nodes=", NotRegexSpace)   // \sNodes=([^\s]+)
  const CpuIds := KeyedRange("CPU_IDs=")                 // CPU_IDs=([0-9]+)-([0-9]+)
  const GpuGres := Keyed("GRES=gpu:", Digit)             // GRES=gpu:([0-9]+)
  const MemTag := SpaceKeyed("Mem=", Digit)              // \sMem=([0-9]+)

  // ---------------------------------------------------------------------------
  // Records
  // ---------------------------------------------------------------------------

  /** One job on one host. */
  datatype JobsMetrics = JobsMetrics(
    jobid: string,
    user: string,
    account: string,
    state: string,
    hostname: string,
    cpus: int,
    gpus: nat,
    mems: nat)

  /** The tags every long line must carry. */
  datatype Tag = JobIdField | UserField | AccountField | StateField

  /** The first capture group of the leftmost match of `p`, if `p` matches. */
  function Submatch(s: string, p: Pattern): (r: Option<string>)
    requires GroupCount(p) >= 1
  {
    match Find(s, p)
    case None => None
    case Some(m) => Some(m.groups[0])
  }

  /** The job-wide values of a line. */
  datatype Header = Header(jobid: string, user: string, account: string, state: string)

  /**
   * A line the job tags cannot be read from. The source indexes the missing
   * submatch and panics, which ends the scrape; the model reports the tag.
   */
  datatype ParseError = MissingTag(tag: Tag, line: string)

  /** The job id, user, account and state of a line; the first of them missing is the error. */
  function ParseHeader(line: string): Result<Header, ParseError> {
    var jobid := Submatch(line, JobIdTag);
    var user := Submatch(line, UserTag);
    var account := Submatch(line, AccountTag);
    var state := Submatch(line, StateTag);
    if jobid.None? then Failure(MissingTag(JobIdField, line))
    else if user.None? then Failure(MissingTag(UserField, line))
    else if account.None? then Failure(MissingTag(AccountField, line))
    else if state.None? then Failure(MissingTag(StateField, line))
    else Success(Header(jobid.value, user.value, account.value, state.value))
  }

  /** A line fails exactly when one of its four tags has no match, and names the first such tag. */
  lemma ParseHeaderFails(line: string)
    ensures ParseHeader(line).Failure? <==>
      Find(line, JobIdTag).None? || Find(line, UserTag).None?
      || Find(line, AccountTag).None? || Find(line, StateTag).None?
    ensures Find(line, JobIdTag).None? ==> ParseHeader(line) == Failure(MissingTag(JobIdField, line))
    ensures Find(line, JobIdTag).Some? && Find(line, UserTag).None? ==>
      ParseHeader(line) == Failure(MissingTag(UserField, line))
    ensures Find(line, JobIdTag).Some? && Find(line, UserTag).Some? && Find(line, AccountTag).None? ==>
      ParseHeader(line) == Failure(MissingTag(AccountField, line))
    ensures (Find(line, JobIdTag).Some? && Find(line, UserTag).Some? && Find(line, AccountTag).Some?
             && Find(line, StateTag).None?) ==>
      ParseHeader(line) == Failure(MissingTag(StateField, line))
    ensures ParseHeader(line).Success? ==>
      Some(ParseHeader(line).value.jobid) == Submatch(line, JobIdTag)
      && Some(ParseHeader(line).value.user) == Submatch(line, UserTag)
      && Some(ParseHeader(line).value.account) == Submatch(line, AccountTag)
      && Some(ParseHeader(line).value.state) == Submatch(line, StateTag)
  {
  }

  /**
   * The header read from the text: a line that carries `JobId=<digits>`,
   * `UserId=<word>(`, `Account=<text>` and `JobState=<text>`, each value a
   * maximal run and each tag the first place its pattern matches, has exactly
   * those four values as its header.
   */
  lemma HeaderOfTags(line: string, ij: nat, jobid: string, iu: nat, user: string,
                     ia: nat, account: string, ist: nat, state: string)
    requires HasAt(line, ij, "JobId=" + jobid) && |jobid| > 0 && AllDigits(jobid)
    requires ij + 6 + |jobid| == |line| || !IsDigit(line[ij + 6 + |jobid|])
    requires forall j :: 0 <= j < ij ==> MatchAt(line, j, JobIdTag).None?
    requires HasAt(line, iu, "UserId=" + user + "(") && |user| > 0 && (forall x :: 0 <= x < |user| ==> IsWord(user[x]))
    requires forall j :: 0 <= j < iu ==> MatchAt(line, j, UserTag).None?
    requires HasAt(line, ia, "Account=" + account) && |account| > 0
    requires forall x :: 0 <= x < |account| ==> !IsRegexSpace(account[x])
    requires ia + 8 + |account| == |line| || IsRegexSpace(line[ia + 8 + |account|])
    requires forall j :: 0 <= j < ia ==> MatchAt(line, j, AccountTag).None?
    requires HasAt(line, ist, "JobState=" + state) && |state| > 0
    requires forall x :: 0 <= x < |state| ==> !IsRegexSpace(state[x])
    requires ist + 9 + |state| == |line| || IsRegexSpace(line[ist + 9 + |state|])
    requires forall j :: 0 <= j < ist ==> MatchAt(line, j, StateTag).None?
    ensures ParseHeader(line) == Success(Header(jobid, user, account, state))
  {
    JobIdSubmatch(line, ij, jobid);
    UserSubmatch(line, iu, user);
    AccountSubmatch(line, ia, account);
    StateSubmatch(line, ist, state);
    HeaderOfSubmatches(line, jobid, user, account, state);
  }

  lemma HeaderOfSubmatches(line: string, jobid: string, user: string, account: string, state: string)
    requires Submatch(line, JobIdTag) == Some(jobid) && Submatch(line, UserTag) == Some(user)
    requires Submatch(line, AccountTag) == Some(account) && Submatch(line, StateTag) == Some(state)
    ensures ParseHeader(line) == Success(Header(jobid, user, account, state))
  {
  }

  lemma JobIdSubmatch(line: string, i: nat, d: string)
    requires HasAt(line, i, "JobId=" + d) && |d| > 0 && AllDigits(d)
    requires i + 6 + |d| == |line| || !IsDigit(line[i + 6 + |d|])
    requires forall j :: 0 <= j < i ==> MatchAt(line, j, JobIdTag).None?
    ensures Submatch(line, JobIdTag) == Some(d)
  {
    FoundKeyedRun(line, "JobId=", Digit, i, d);
  }

  lemma UserSubmatch(line: string, i: nat, v: string)
    requires HasAt(line, i, "UserId=" + v + "(") && |v| > 0 && (forall x :: 0 <= x < |v| ==> IsWord(v[x]))
    requires forall j :: 0 <= j < i ==> MatchAt(line, j, UserTag).None?
    ensures Submatch(line, UserTag) == Some(v)
  {
    FoundBeforeParen(line, "UserId=", i, v);
  }

  lemma AccountSubmatch(line: string, i: nat, v: string)
    requires HasAt(line, i, "Account=" + v) && |v| > 0 && (forall x :: 0 <= x < |v| ==> !IsRegexSpace(v[x]))
    requires i + 8 + |v| == |line| || IsRegexSpace(line[i + 8 + |v|])
    requires forall j :: 0 <= j < i ==> MatchAt(line, j, AccountTag).None?
    ensures Submatch(line, AccountTag) == Some(v)
  {
    FoundKeyedRun(line, "Account=", NotRegexSpace, i, v);
  }

  lemma StateSubmatch(line: string, i: nat, v: string)
    requires HasAt(line, i, "JobState=" + v) && |v| > 0 && (forall x :: 0 <= x < |v| ==> !IsRegexSpace(v[x]))
    requires i + 9 + |v| == |line| || IsRegexSpace(line[i + 9 + |v|])
    requires forall j :: 0 <= j < i ==> MatchAt(line, j, StateTag).None?
    ensures Submatch(line, StateTag) == Some(v)
  {
    FoundKeyedRun(line, "JobState=", NotRegexSpace, i, v);
  }

  // ---------------------------------------------------------------------------
  // Allocation groups
  // ---------------------------------------------------------------------------

  /** What one allocation group gives each of its hosts. */
  datatype Resources = Resources(cpus: int, gpus: nat, mems: nat)

  /** What a group gives each of its hosts: its cpus, gpus and memory. */
  function DecodeFragment(frag: string): Resources {
    Resources(CpuCount(frag), GpuCount(frag), MemCount(frag))
  }

  /**
   * `end - start + 1` of the first `CPU_IDs=<start>-<end>` (with no check
   * that `start <= end`), or 0 when there is none.
   */
  function CpuCount(frag: string): int {
    match Find(frag, CpuIds)
    case None => 0
    case Some(m) => ParseNumber(m.groups[1]) - ParseNumber(m.groups[0]) + 1
  }

  /** The number of the first `GRES=gpu:<n>`, or 0 when there is none. */
  function GpuCount(frag: string): nat {
    match Submatch(frag, GpuGres) case None => 0 case Some(g) => ParseNumber(g)
  }

  /** The number of the first `Mem=<n>` after a separator, unconverted, or 0 when there is none. */
  function MemCount(frag: string): nat {
    match Submatch(frag, MemTag) case None => 0 case Some(g) => ParseNumber(g)
  }

  /**
   * The cpus of a group are `last - first + 1` of its first
   * `CPU_IDs=<first>-<last>`; a range written backwards gives zero or a
   * negative count.
   */
  lemma FragmentCpus(frag: string, i: nat, first: string, last: string)
    requires HasAt(frag, i, "CPU_IDs=" + first + "-" + last)
    requires |first| > 0 && AllDigits(first) && |last| > 0 && AllDigits(last)
    requires i + 9 + |first| + |last| == |frag| || !IsDigit(frag[i + 9 + |first| + |last|])
    requires forall j :: 0 <= j < i ==> MatchAt(frag, j, CpuIds).None?
    ensures CpuCount(frag) == DigitsValue(last) - DigitsValue(first) + 1
    ensures DigitsValue(last) < DigitsValue(first) ==> CpuCount(frag) <= 0
  {
    CpuMatch(frag, i, first, last);
  }

  lemma CpuMatch(frag: string, i: nat, first: string, last: string)
    requires HasAt(frag, i, "CPU_IDs=" + first + "-" + last)
    requires |first| > 0 && AllDigits(first) && |last| > 0 && AllDigits(last)
    requires i + 9 + |first| + |last| == |frag| || !IsDigit(frag[i + 9 + |first| + |last|])
    requires forall j :: 0 <= j < i ==> MatchAt(frag, j, CpuIds).None?
    ensures Find(frag, CpuIds) == Some(Match(i, i + 9 + |first| + |last|, [first, last]))
  {
    FoundRange(frag, "CPU_IDs=", i, first, last);
  }

  /** The gpus of a group are the number of its first `GRES=gpu:<n>`. */
  lemma FragmentGpus(frag: string, i: nat, d: string)
    requires HasAt(frag, i, "GRES=gpu:" + d) && |d| > 0 && AllDigits(d)
    requires i + 9 + |d| == |frag| || !IsDigit(frag[i + 9 + |d|])
    requires forall j :: 0 <= j < i ==> MatchAt(frag, j, GpuGres).None?
    ensures GpuCount(frag) == DigitsValue(d)
  {
    GpuMatch(frag, i, d);
  }

  lemma GpuMatch(frag: string, i: nat, d: string)
    requires HasAt(frag, i, "GRES=gpu:" + d) && |d| > 0 && AllDigits(d)
    requires i + 9 + |d| == |frag| || !IsDigit(frag[i + 9 + |d|])
    requires forall j :: 0 <= j < i ==> MatchAt(frag, j, GpuGres).None?
    ensures Find(frag, GpuGres) == Some(Match(i, i + 9 + |d|, [d]))
  {
    FoundKeyedRun(frag, "GRES=gpu:", Digit, i, d);
  }

  /** The memory of a group is the number of its first `Mem=<n>` after a separator. */
  lemma FragmentMems(frag: string, i: nat, d: string)
    requires i < |frag| && IsRegexSpace(frag[i])
    requires HasAt(frag, i + 1, "Mem=" + d) && |d| > 0 && AllDigits(d)
    requires i + 5 + |d| == |frag| || !IsDigit(frag[i + 5 + |d|])
    requires forall j :: 0 <= j < i ==> MatchAt(frag, j, MemTag).None?
    ensures MemCount(frag) == DigitsValue(d)
  {
    MemMatch(frag, i, d);
  }

  lemma MemMatch(frag: string, i: nat, d: string)
    requires i < |frag| && IsRegexSpace(frag[i])
    requires HasAt(frag, i + 1, "Mem=" + d) && |d| > 0 && AllDigits(d)
    requires i + 5 + |d| == |frag| || !IsDigit(frag[i + 5 + |d|])
    requires forall j :: 0 <= j < i ==> MatchAt(frag, j, MemTag).None?
    ensures Find(frag, MemTag) == Some(Match(i, i + 5 + |d|, [d]))
  {
    FoundSpaceKeyedRun(frag, "Mem=", Digit, i, d);
  }

  /** A resource whose pattern matches nowhere in the group is 0. */
  lemma FragmentDefaults(frag: string)
    ensures (forall j :: 0 <= j <= |frag| ==> MatchAt(frag, j, CpuIds).None?) ==> CpuCount(frag) == 0
    ensures (forall j :: 0 <= j <= |frag| ==> MatchAt(frag, j, GpuGres).None?) ==> GpuCount(frag) == 0
    ensures (forall j :: 0 <= j <= |frag| ==> MatchAt(frag, j, MemTag).None?) ==> MemCount(frag) == 0
  {
  }

  /** The node list of a group: the value of its first `Nodes=` after a separator. */
  function NodeValue(frag: string): Option<string> {
    Submatch(frag, NodeTag)
  }

  /**
   * The node list read from the text: a separator at `i`, then `Nodes=<v>`
   * with `v` a maximal run of non-separator characters, and no earlier match,
   * make `v` the group's node list.
   */
  lemma NodeValueOf(frag: string, i: nat, v: string)
    requires i < |frag| && IsRegexSpace(frag[i])
    requires HasAt(frag, i + 1, "Nodes=" + v) && |v| > 0 && (forall x :: 0 <= x < |v| ==> !IsRegexSpace(v[x]))
    requires i + 7 + |v| == |frag| || IsRegexSpace(frag[i + 7 + |v|])
    requires forall j :: 0 <= j < i ==> MatchAt(frag, j, NodeTag).None?
    ensures NodeValue(frag) == Some(v)
  {
    FoundSpaceKeyedRun(frag, "Nodes=", NotRegexSpace, i, v);
  }

  /**
   * `GetHostname`: the output of the host-list expansion, split at newlines;
   * the pieces hold no newline and joined back give the whole output.
   */
  function GetHostname(expand: string -> string, node: string): (hosts: seq<string>)
    ensures |hosts| >= 1 && JoinLines(hosts) == expand(node)
    ensures forall k :: 0 <= k < |hosts| ==> NoNewline(hosts[k])
  {
    LinesJoin(expand(node));
    Lines(expand(node))
  }

  /** The record of one host of a group. */
  function Record(h: Header, res: Resources, host: string): JobsMetrics {
    JobsMetrics(h.jobid, h.user, h.account, h.state, host, res.cpus, res.gpus, res.mems)
  }

  /** One record per non-empty host name, in order. */
  function HostRecords(h: Header, res: Resources, hosts: seq<string>): seq<JobsMetrics>
    decreases |hosts|
  {
    if hosts == [] then []
    else
      var last := hosts[|hosts| - 1];
      HostRecords(h, res, hosts[..|hosts| - 1]) + (if |last| > 0 then [Record(h, res, last)] else [])
  }

  /**
   * The records of one group: none without a node list, one for a plain
   * node name, and one per expanded host name for a list with a `[`.
   */
  function FragmentRecords(h: Header, frag: string, expand: string -> string): seq<JobsMetrics> {
    match NodeValue(frag)
    case None => []
    case Some(node) =>
      if '[' in node then HostRecords(h, DecodeFragment(frag), GetHostname(expand, node))
      else [Record(h, DecodeFragment(frag), node)]
  }

  /** The texts of the given matches. */
  function MatchTexts(s: string, ms: seq<Match>): seq<string>
    requires forall k :: 0 <= k < |ms| ==> ms[k].start <= ms[k].end <= |s|
    decreases |ms|
  {
    if ms == [] then [] else [s[ms[0].start..ms[0].end]] + MatchTexts(s, ms[1..])
  }

  /** The allocation groups of a line, left to right, as `FindAllStringSubmatch` finds them. */
  function Fragments(line: string): seq<string> {
    MatchTexts(line, FindAll(line, NodeString))
  }

  function FragmentsRecords(h: Header, frags: seq<string>, expand: string -> string): seq<JobsMetrics>
    decreases |frags|
  {
    if frags == [] then []
    else FragmentsRecords(h, frags[..|frags| - 1], expand) + FragmentRecords(h, frags[|frags| - 1], expand)
  }

  // ---------------------------------------------------------------------------
  // Lines
  // ---------------------------------------------------------------------------

  /** The records of one line: none for a line of ten bytes or fewer. */
  function LineRecords(line: string, expand: string -> string): Result<seq<JobsMetrics>, ParseError> {
    if Utf8Length(line) > 10 then
      match ParseHeader(line)
      case Failure(e) => Failure(e)
      case Success(h) => Success(FragmentsRecords(h, Fragments(line), expand))
    else Success([])
  }

  /** The outcome of each line, in order. */
  function LineResults(lines: seq<string>, expand: string -> string): seq<Result<seq<JobsMetrics>, ParseError>> {
    seq(|lines|, k requires 0 <= k < |lines| => LineRecords(lines[k], expand))
  }

  /** The records of the outcomes one after the other, or the error of the first that failed. */
  function Gather(results: seq<Result<seq<JobsMetrics>, ParseError>>): Result<seq<JobsMetrics>, ParseError>
    decreases |results|
  {
    if results == [] then Success([])
    else
      match Gather(results[..|results| - 1])
      case Failure(e) => Failure(e)
      case Success(jobs) =>
        match results[|results| - 1]
        case Failure(e) => Failure(e)
        case Success(more) => Success(jobs + more)
  }

  /** The records of the lines in order, or the error of the first line that has one. */
  function JobsOf(lines: seq<string>, expand: string -> string): Result<seq<JobsMetrics>, ParseError> {
    Gather(LineResults(lines, expand))
  }

  function ExpectedJobs(input: string, expand: string -> string): Result<seq<JobsMetrics>, ParseError> {
    JobsOf(Lines(input), expand)
  }

  // ---------------------------------------------------------------------------
  // The parser
  // ---------------------------------------------------------------------------

  /**
   * `ParseJobsMetrics`: the lines of the listing in order, the records of
   * each appended to the result; a line missing a job tag ends the parse.
   * `expand` stands for the host-list expansion command.
   */
  method ParseJobsMetrics(input: string, expand: string -> string) returns (r: Result<seq<JobsMetrics>, ParseError>)
    ensures r == ExpectedJobs(input, expand)
  {
    var jobs: seq<JobsMetrics> := [];
    var lines := Lines(input);
    ghost var results := LineResults(lines, expand);
    var i := 0;
    while i < |lines|
      invariant 0 <= i <= |lines|
      invariant Gather(results[..i]) == Success(jobs)
    {
      var lineJobs := LineJobs(lines[i], expand);
      assert results[i] == lineJobs;
      GatherExtend(results, i, jobs);
      if lineJobs.Failure? {
        return Failure(lineJobs.error);
      }
      jobs := jobs + lineJobs.value;
      i := i + 1;
    }
    assert results[..|lines|] == results;
    return Success(jobs);
  }

  /** The body of the line loop: the length gate, the four job tags, then the groups. */
  method LineJobs(line: string, expand: string -> string) returns (r: Result<seq<JobsMetrics>, ParseError>)
    ensures r == LineRecords(line, expand)
  {
    if Utf8Length(line) > 10 {
      var header := ParseHeader(line);
      if header.Failure? {
        return Failure(header.error);
      }
      var jobs := FragmentsJobs(header.value, Fragments(line), expand);
      return Success(jobs);
    }
    return Success([]);
  }

  /** The loop over the allocation groups of a line. */
  method FragmentsJobs(h: Header, frags: seq<string>, expand: string -> string) returns (jobs: seq<JobsMetrics>)
    ensures jobs == FragmentsRecords(h, frags, expand)
  {
    jobs := [];
    var k := 0;
    while k < |frags|
      invariant 0 <= k <= |frags|
      invariant jobs == FragmentsRecords(h, frags[..k], expand)
    {
      var more := FragmentJobs(h, frags[k], expand);
      assert frags[..k + 1][..k] == frags[..k];
      jobs := jobs + more;
      k := k + 1;
    }
    assert frags[..|frags|] == frags;
  }

  /** The body of the group loop: decode the group, then branch on its node list. */
  method FragmentJobs(h: Header, frag: string, expand: string -> string) returns (jobs: seq<JobsMetrics>)
    ensures jobs == FragmentRecords(h, frag, expand)
  {
    var res := DecodeFragment(frag);
    var nodes := NodeValue(frag);
    jobs := [];
    if nodes.Some? {
      if '[' in nodes.value {
        var hostnames := GetHostname(expand, nodes.value);
        jobs := HostJobs(h, res, hostnames);
      } else {
        jobs := [Record(h, res, nodes.value)];
      }
    }
  }

  /** The loop over the expanded host names, skipping the empty ones. */
  method HostJobs(h: Header, res: Resources, hosts: seq<string>) returns (jobs: seq<JobsMetrics>)
    ensures jobs == HostRecords(h, res, hosts)
  {
    jobs := [];
    var j := 0;
    while j < |hosts|
      invariant 0 <= j <= |hosts|
      invariant jobs == HostRecords(h, res, hosts[..j])
    {
      var host := hosts[j];
      if |host| > 0 {
        jobs := jobs + [Record(h, res, host)];
      }
      assert hosts[..j + 1][..j] == hosts[..j];
      j := j + 1;
    }
    assert hosts[..|hosts|] == hosts;
  }

  // ---------------------------------------------------------------------------
  // Properties
  // ---------------------------------------------------------------------------

  /** One more outcome: its records are appended, or its error is the result of the whole sequence. */
  lemma GatherExtend(results: seq<Result<seq<JobsMetrics>, ParseError>>, i: nat, jobs: seq<JobsMetrics>)
    requires i < |results| && Gather(results[..i]) == Success(jobs)
    ensures results[i].Success? ==> Gather(results[..i + 1]) == Success(jobs + results[i].value)
    ensures results[i].Failure? ==> Gather(results) == Failure(results[i].error)
  {
    assert results[..i + 1][..i] == results[..i];
    if results[i].Failure? {
      GatherFailureSticks(results, i + 1);
    }
  }

  /** Once a prefix of the outcomes has failed, the whole sequence fails with that error. */
  lemma {:induction false} GatherFailureSticks(results: seq<Result<seq<JobsMetrics>, ParseError>>, n: nat)
    requires n <= |results| && Gather(results[..n]).Failure?
    ensures Gather(results) == Gather(results[..n])
    decreases |results|
  {
    if n < |results| {
      var pre := results[..|results| - 1];
      assert pre[..n] == results[..n];
      GatherFailureSticks(pre, n);
    } else {
      assert results[..n] == results;
    }
  }

  /**
   * A sequence of outcomes gathers to a success exactly when every outcome
   * is one; a failure carries the error of the first failed outcome.
   */
  lemma {:induction false} GatherSpec(results: seq<Result<seq<JobsMetrics>, ParseError>>)
    ensures Gather(results).Success? <==> forall k :: 0 <= k < |results| ==> results[k].Success?
    ensures Gather(results).Failure? ==>
      exists k :: 0 <= k < |results| && results[k] == Failure(Gather(results).error)
        && forall j :: 0 <= j < k ==> results[j].Success?
    decreases |results|
  {
    if results != [] {
      var pre := results[..|results| - 1];
      GatherSpec(pre);
      assert forall k :: 0 <= k < |pre| ==> pre[k] == results[k];
      if Gather(pre).Failure? {
        var k :| 0 <= k < |pre| && pre[k] == Failure(Gather(pre).error)
          && forall j :: 0 <= j < k ==> pre[j].Success?;
        assert results[k].Failure?;
      }
    }
  }

  /** A successful gather is the records of the outcomes one after the other. */
  lemma {:induction false} GatherConcat(results: seq<Result<seq<JobsMetrics>, ParseError>>)
    requires forall k :: 0 <= k < |results| ==> results[k].Success?
    ensures Gather(results) == Success(ConcatValues(results))
    decreases |results|
  {
    if results != [] {
      var pre := results[..|results| - 1];
      assert forall k :: 0 <= k < |pre| ==> pre[k] == results[k];
      GatherConcat(pre);
    }
  }

  /** The records of successful outcomes, concatenated in order. */
  function ConcatValues(results: seq<Result<seq<JobsMetrics>, ParseError>>): seq<JobsMetrics>
    requires forall k :: 0 <= k < |results| ==> results[k].Success?
    decreases |results|
  {
    if results == [] then [] else ConcatValues(results[..|results| - 1]) + results[|results| - 1].value
  }

  /** A line of at most ten bytes, in particular ten ASCII characters or fewer, gives no records. */
  lemma ShortLineSkipped(line: string, expand: string -> string)
    requires Utf8Length(line) <= 10 || (|line| <= 10 && forall k :: 0 <= k < |line| ==> line[k] as int < 0x80)
    ensures LineRecords(line, expand) == Success([])
  {
    ShortLine(line);
  }

  lemma ShortLine(line: string)
    requires Utf8Length(line) <= 10 || (|line| <= 10 && forall k :: 0 <= k < |line| ==> line[k] as int < 0x80)
    ensures Utf8Length(line) <= 10
  {
  }

  /** A long line without one of the job tags fails with the first missing tag. */
  lemma LongLineNeedsTags(line: string, expand: string -> string)
    requires Utf8Length(line) > 10
    ensures LineRecords(line, expand).Failure? <==> ParseHeader(line).Failure?
    ensures Find(line, JobIdTag).None? ==> LineRecords(line, expand) == Failure(MissingTag(JobIdField, line))
  {
    ParseHeaderFails(line);
  }

  /** The names of a sequence of records' hosts. */
  function Hostnames(recs: seq<JobsMetrics>): seq<string>
    decreases |recs|
  {
    if recs == [] then [] else [recs[0].hostname] + Hostnames(recs[1..])
  }

  /** The non-empty strings of `hosts`, in order. */
  function NonEmpty(hosts: seq<string>): seq<string>
    decreases |hosts|
  {
    if hosts == [] then [] else (if |hosts[0]| > 0 then [hosts[0]] else []) + NonEmpty(hosts[1..])
  }

  lemma {:induction false} HostnamesAppend(a: seq<JobsMetrics>, b: seq<JobsMetrics>)
    ensures Hostnames(a + b) == Hostnames(a) + Hostnames(b)
    decreases |a|
  {
    if a != [] {
      assert (a + b)[0] == a[0] && (a + b)[1..] == a[1..] + b;
      HostnamesAppend(a[1..], b);
    } else {
      assert a + b == b;
    }
  }

  lemma {:induction false} NonEmptyAppend(a: seq<string>, b: seq<string>)
    ensures NonEmpty(a + b) == NonEmpty(a) + NonEmpty(b)
    decreases |a|
  {
    if a != [] {
      var head := if |a[0]| > 0 then [a[0]] else [];
      assert (a + b)[0] == a[0] && (a + b)[1..] == a[1..] + b;
      assert NonEmpty(a + b) == head + NonEmpty(a[1..] + b);
      NonEmptyAppend(a[1..], b);
      assert NonEmpty(a) == head + NonEmpty(a[1..]);
    } else {
      assert a + b == b;
    }
  }

  /**
   * The host records of a group are, in order, one per non-empty host name,
   * and each carries the line's header and the group's resources.
   */
  lemma {:induction false} HostRecordsSpec(h: Header, res: Resources, hosts: seq<string>)
    ensures Hostnames(HostRecords(h, res, hosts)) == NonEmpty(hosts)
    ensures forall r :: r in HostRecords(h, res, hosts) ==> r == Record(h, res, r.hostname)
    decreases |hosts|
  {
    if hosts != [] {
      var pre := hosts[..|hosts| - 1];
      var last := hosts[|hosts| - 1];
      HostRecordsSpec(h, res, pre);
      var tail := if |last| > 0 then [Record(h, res, last)] else [];
      HostnamesAppend(HostRecords(h, res, pre), tail);
      assert hosts == pre + [last];
      NonEmptyAppend(pre, [last]);
      assert NonEmpty([last]) == (if |last| > 0 then [last] else []) + NonEmpty([]);
      assert Hostnames(tail) == (if |last| > 0 then [last] else []) by {
        if |last| > 0 {
          assert Hostnames(tail) == [last] + Hostnames([]);
        }
      }
    }
  }

  /**
   * Every record of a group carries the line's header and the group's
   * decoded resources; a plain node name gives exactly one record, and a
   * bracketed node list one per non-empty line of its expansion, in order.
   */
  lemma FragmentRecordsSpec(h: Header, frag: string, expand: string -> string)
    ensures forall r :: r in FragmentRecords(h, frag, expand) ==> r == Record(h, DecodeFragment(frag), r.hostname)
    ensures NodeValue(frag).None? ==> FragmentRecords(h, frag, expand) == []
    ensures NodeValue(frag).Some? && '[' !in NodeValue(frag).value ==>
      FragmentRecords(h, frag, expand) == [Record(h, DecodeFragment(frag), NodeValue(frag).value)]
    ensures NodeValue(frag).Some? && '[' in NodeValue(frag).value ==>
      Hostnames(FragmentRecords(h, frag, expand)) == NonEmpty(Lines(expand(NodeValue(frag).value)))
  {
    match NodeValue(frag)
    case None =>
    case Some(node) =>
      if '[' in node {
        HostRecordsSpec(h, DecodeFragment(frag), GetHostname(expand, node));
      }
  }

  /** Every record of a line carries the line's job id, user, account and state. */
  lemma {:induction false} FragmentsRecordsShareHeader(h: Header, frags: seq<string>, expand: string -> string)
    ensures forall r :: r in FragmentsRecords(h, frags, expand) ==>
      r.jobid == h.jobid && r.user == h.user && r.account == h.account && r.state == h.state
    decreases |frags|
  {
    if frags != [] {
      FragmentsRecordsShareHeader(h, frags[..|frags| - 1], expand);
      FragmentRecordsSpec(h, frags[|frags| - 1], expand);
    }
  }

  /**
   * No allocation group is missed wholesale: every position where the group
   * pattern matches lies inside one of the groups that were found.
   */
  lemma FragmentsCoverGroups(line: string, j: nat)
    requires j <= |line| && MatchAt(line, j, NodeString).Some?
    ensures exists m :: m in FindAll(line, NodeString) && m.start <= j < m.end
  {
    FindAllFromCovers(line, NodeString, 0, j);
  }

  /**
   * Every group found ends with the separator it consumed, and no group found
   * starts at that separator: a group that begins there (the next group
   * after a single space) is not found.
   */
  lemma AdjacentGroupSwallowed(line: string, k: nat)
    requires k < |FindAll(line, NodeString)|
    ensures IsRegexSpace(line[FindAll(line, NodeString)[k].end - 1])
    ensures forall m :: m in FindAll(line, NodeString) ==> m.start != FindAll(line, NodeString)[k].end - 1
  {
    FindAllFromMatches(line, NodeString, 0, k);
    AllocationEndsWithSeparator(line, FindAll(line, NodeString)[k].start);
    FindAllNoStartAtEnd(line, NodeString, k);
  }
}
