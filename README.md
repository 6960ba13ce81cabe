# Slurm job exporter: the parsing and aggregation core, in Dafny

This project models the parsing core of a Prometheus exporter for the Slurm
workload manager. It proves properties of that model.

The exporter reads two text listings and turns them into metrics:

* The queue listing has one job per line: `jobid entity state tres nodelist`.
  It is read twice. `ParseAccountsMetrics` keys the totals by the account in
  column 2. `ParseUsersMetrics` keys them by the user in column 2.
  * Every line with four or more whitespace-separated fields is counted for
    its entity.
  * The lower-cased state picks the counter (`^pending`, `^running`,
    `^suspended`; anything else counts nothing).
  * A running job adds the cpus, gpus and memory decoded from its TRES field
    to the running sums. Memory is in gigabytes: a `mem=` value whose text
    holds an `M` is divided by 1000.
* The detailed job listing (`scontrol show job -d -o`) has one job per line.
  `ParseJobsMetrics` reads it as follows:
  * Every line longer than ten bytes must carry `JobId=`, `UserId=...(`,
    `Account=` and `JobState=`.
  * Every allocation group that the group pattern finds (`Nodes=...
    CPU_IDs=a-b Mem=m GRES=gpu:g`; see "Left out") is decoded into cpus
    `b - a + 1`, gpus `g` and memory `m`.
  * A group gives one record per host of its node list. A bracketed node list
    is expanded to host names by an external command, one host per line, and
    empty lines are dropped.

## Modules

| file | module | what it holds |
|---|---|---|
| `wrappers.dfy` | `Wrappers` | `Option` and `Result` |
| `text.dfy` | `Text` | `strings.Split` on newlines, `strings.Fields`, `strings.ToLower`, digit strings, UTF-8 byte length |
| `scan.dfy` | `Scan` | the regular expressions of the source as leftmost-first scanners, `FindString`, `FindAllString` |
| `queue.dfy` | `QueueListing` | the queue-listing parser shared by accounts and users: TRES decoder, state classifier, per-entity aggregation |
| `accounts.dfy` | `Accounts` | `ParseAccountsMetrics` |
| `users.dfy` | `Users` | `ParseUsersMetrics` |
| `jobs.dfy` | `Jobs` | `ParseJobsMetrics`, `GetHostname` |

Each parser's loops are written as methods with loop invariants. Each method
is proved equal to a function that specifies it: `QueueTotals` for the queue
listing and `ExpectedJobs` for the detailed listing. Lemmas then relate those
functions to independent reference definitions:

* The queue totals are proved equal to per-entity counts and sums over the
  parsed records (`Tally`).
* The job records are proved to be the concatenation of the records of every
  line, or the error of the first bad line (`GatherSpec`, `GatherConcat`).

Each regular expression of the source is modelled by a scanner function that
is specific to its shape (`Scan.MatchAt`). The scanners follow Go's
leftmost-first semantics:

* Greedy runs take the longest run.
* The lazy `.*?` of `\sNodes.*?GRES.*?\s` takes the first occurrence.
* `FindAll` resumes after the end of each match.

## Model

| member | source | states |
|---|---|---|
| Accounts.ParseAccountsMetrics | accounts.go:53-97 | the map is the fold of the queue listing; its keys are exactly the accounts of the lines with four or more fields, and each account's counters are the counts of its pending, running and suspended jobs and the sums of its running jobs' cpus, gpus and memory |
| Users.ParseUsersMetrics | users.go:53-97 | the same, keyed by the user in column 2 |
| QueueListing.ParseQueueMetrics | accounts.go:54-96 | the loop over the lines counts every line in order, starting from an empty map |
| QueueListing.CountLine | accounts.go:57-79 | a line with more than three fields is counted for its column-2 entity, with its state lower-cased and its TRES field decoded; any other line leaves the map unchanged |
| QueueListing.CountEntity | accounts.go:59-63 | an entity seen for the first time starts from all-zero counters before its job is counted |
| QueueListing.CountJob | accounts.go:80-93 | the first of `^pending`, `^running`, `^suspended` that matches picks the counter; only a running job adds its resources |
| QueueListing.ParseLine | accounts.go:57-66 | computes the record of a line with more than three fields (entity in column 2, state class of column 3, TRES of column 4), and nothing for a shorter line; see `StepSkipsShortLines` and `StepCountsRecord` |
| QueueListing.Classify | accounts.go:65-93 | computes the class of the lower-cased state; see `ClassifyByPrefix` |
| QueueListing.DecodeTres | accounts.go:66-79 | computes the cpus, gpus and memory of a TRES field; see `DecodeTresCpus`, `DecodeTresGpus`, `DecodeTresMem` and `DecodeTresMissing` |
| QueueListing.NumberIn | accounts.go:73-76 | computes the value of the first digit run of a matched text, or 0 without one; see `FirstNumberAfterKey` and `Text.ParseNumber` |
| QueueListing.MemoryIn | accounts.go:76-79 | computes the number of a matched `mem=` text, divided by 1000 when the text holds an `M`; see `MemoryOfUnit` |
| QueueListing.FoundKeyedWithUnit | accounts.go:69-72 | the leftmost match of `key([0-9]+[A-Z])` spans the key, a non-empty maximal digit run and the one character after it |
| QueueListing.ClassifyByPrefix | accounts.go:80-93 | each class holds exactly when the lower-cased state starts with its word, and "other" when it starts with none of them (the three prefixes exclude one another) |
| QueueListing.ClassifyIgnoresAsciiCase | accounts.go:64-93 | two states that differ only in upper- against lower-case ASCII letters have the same class, so `RUNNING` and `Running` count as running |
| QueueListing.StepSkipsShortLines | accounts.go:57-58 | a line with three or fewer fields changes nothing |
| QueueListing.StepCountsRecord | accounts.go:58-66 | a longer line is counted as the record made from its fields 1, 2 and 3 |
| QueueListing.StepFrame | accounts.go:58-63 | a counted line adds its entity to the keys, even for an unrecognised state, and leaves every other entity's counters unchanged |
| QueueListing.StepCounters | accounts.go:80-93 | exactly one of the pending, running and suspended counters goes up by one (none for another state); the running sums change only for a running job, by its decoded cpus, gpus and memory |
| QueueListing.AggregateIsTally | accounts.go:54-96 | the map built line by line has as keys exactly the entities of the records, and each entry equals that entity's counts and sums computed independently over the records |
| QueueListing.TallyAbsent | accounts.go:60-63 | an entity with no records has all-zero counters, the value the map starts it from |
| QueueListing.AddKeepsTally | accounts.go:59-93 | counting one more record keeps the map equal to the per-entity tally of the records so far |
| QueueListing.RunningLineExample | accounts.go:53-97 | a listing of the one line `123 acct1 RUNNING cpu=4,mem=16000M,gpu=0 node01` gives exactly the entry `acct1` with one running job, 4 cpus, no gpus and 16 gigabytes of memory |
| QueueListing.ExampleTresDecoded | accounts.go:66-79 | the TRES field `cpu=4,mem=16000M,gpu=0` decodes to 4 cpus, 0 gpus and 16 gigabytes |
| QueueListing.QueueTotalsNonNegative | accounts.go:77-79 | every entity's running memory is non-negative |
| QueueListing.DecodeTresCpus | accounts.go:67-74 | cpus is the value of the digits after the leftmost `cpu=` that has digits after it |
| QueueListing.DecodeTresGpus | accounts.go:68-75 | gpus is the value of the digits after the leftmost `gpu=` that has digits after it (this also finds `gres/gpu=`) |
| QueueListing.DecodeTresMem | accounts.go:69-79 | memory is the value of the digits after the leftmost `mem=<digits><A-Z>`, divided by 1000 when the unit letter is `M` and unscaled for any other letter |
| QueueListing.DecodeTresMissing | accounts.go:70-76 | a resource whose pattern matches nowhere in the TRES field is 0 |
| QueueListing.FirstNumberAfterKey | accounts.go:73-76 | the first digit run of a matched `key<digits>...` text is the digits after the key |
| QueueListing.MemoryOfUnit | accounts.go:76-79 | a matched memory text is megabytes divided by 1000 when its unit is `M`, and gigabytes otherwise |
| Text.Lines | accounts.go:55 | splits a text at every newline into at least one piece; see `LinesJoin` and `JoinLinesSplit` |
| Text.Fields | accounts.go:57 | splits a line into its maximal runs of non-space characters; see `FieldsSpec`, `FieldsUnwords` and `FieldsCount` |
| Text.Lower | accounts.go:65 | the result has the input's length, holds no upper-case ASCII letter, has each upper-case ASCII letter replaced by its lower-case letter, and keeps every other ASCII character |
| Text.LowerChar | accounts.go:65 | a character's lower case is never an upper-case ASCII letter: `A`-`Z` move up by 32, to `a`-`z`; U+0130 becomes `i`, the Kelvin sign becomes `k`, and every other character is kept |
| Text.LinesJoin | accounts.go:55 | splitting at newlines loses nothing (joining the pieces gives the input back), and no piece contains a newline |
| Text.JoinLinesSplit | jobs.go:52-53 | splitting the newline-joined lines gives back exactly those lines |
| Text.FieldsSpec | accounts.go:57 | every field is a non-empty run of non-space characters, and the fields concatenated are the line with its spaces removed |
| Text.FieldsUnwords | accounts.go:57 | splitting fields joined by single spaces gives those fields back |
| Text.FieldsCount | accounts.go:57 | the number of fields is the number of positions where a non-space character starts a run |
| Text.Utf8Length | jobs.go:82 | the byte length of a line lies between its character count and four times that count, and equals the character count for ASCII text |
| Text.ParseNumber | accounts.go:73-76 | the number of an empty match is 0 |
| Scan.IndexOf | jobs.go:72 | the result is the first occurrence of the text at or after the start position |
| Scan.MatchAt | jobs.go:71-79 | tries one pattern at one position by the scanner of its shape; a match starts at that position, ends within the text and has exactly the pattern's number of capture groups |
| Scan.MatchNumber | accounts.go:73 | `[0-9]+`: a match starts at the position, has no capture and spans only digits; see `QueueListing.FirstNumberAfterKey` |
| Scan.MatchKeyed | jobs.go:71 | `key([cls]+)` (also `Account=`, `JobState=`, `GRES=gpu:`, `cpu=`, `gpu=`): a match has one capture; `FoundKeyedRun` states what it captures |
| Scan.MatchSpaceKeyed | jobs.go:73 | `\skey([cls]+)` (`\sNodes=([^\s]+)` and `\sMem=([0-9]+)`): a match has one capture; `FoundSpaceKeyedRun` states what it captures, and `Jobs.NodeValueOf` and `Jobs.FragmentMems` apply it |
| Scan.MatchWithUnit | accounts.go:69 | `key([0-9]+[A-Z])`: a match has one capture; `QueueListing.FoundKeyedWithUnit` states its span |
| Scan.MatchBeforeParen | jobs.go:74 | `key([\w]+)\(`: a match has one capture; `FoundBeforeParen` states what it captures |
| Scan.MatchRange | jobs.go:76 | `key([0-9]+)-([0-9]+)`: a match has two captures; `FoundRange` states them |
| Scan.MatchAllocation | jobs.go:72 | `\sNodes.*?GRES.*?\s`: a match has no capture; `FoundAllocationAt` and `AllocationEndsWithSeparator` state where it ends |
| Scan.FoundKeyedRun | jobs.go:71 | `key<v>` at `i`, `v` a maximal non-empty run of the class, with no earlier match, is the leftmost match of `key([cls]+)` and captures exactly `v` |
| Scan.FoundBeforeParen | jobs.go:74 | `key<v>(` at `i`, `v` a non-empty run of word characters, with no earlier match, is the leftmost match of `key([\w]+)\(` and captures exactly `v` |
| Scan.FoundSpaceKeyedRun | jobs.go:73 | a separator at `i` followed by `key<v>`, `v` a maximal non-empty run of the class, with no earlier match, is the leftmost match of `\skey([cls]+)` and captures exactly `v` |
| Scan.FoundAllocationAt | jobs.go:72 | after a separator and `Nodes` at `i`, the group runs to the first `GRES` at or after `i + 6` and then through the first separator after it, which it includes |
| Scan.Find | jobs.go:83-86 | the leftmost match of a pattern in the whole text, as `FindStringSubmatch` returns it; see `FindFrom` |
| Scan.FindAll | jobs.go:87 | the successive non-overlapping matches, as `FindAllStringSubmatch(line, -1)` returns them; see `FindAllFrom`, `FindAllFromMatches` and `FindAllFromCovers` |
| Scan.FindFrom | accounts.go:70-72 | the match found is the leftmost: it matches there and no earlier position matches |
| Scan.FindString | accounts.go:70-72 | no match gives the empty string |
| Scan.FindAllFrom | jobs.go:87 | the matches lie within the string, in order and without overlap |
| Scan.FindAllFromMatches | jobs.go:87 | every match found is the match of the pattern at its own start |
| Scan.FindAllFromCovers | jobs.go:87 | every position where the pattern matches lies inside a match that was found |
| Scan.FoundRange | jobs.go:76 | the leftmost `CPU_IDs=<first>-<last>` captures exactly those two digit runs |
| Scan.FindAllNoStartAtEnd | jobs.go:87 | no match found starts at the last character of another match longer than one character |
| Scan.AllocationEndsWithSeparator | jobs.go:72 | an allocation-group match is longer than one character and ends with the whitespace it consumed |
| Jobs.ParseJobsMetrics | jobs.go:67-128 | the loop over the lines gives the records of every line in order, or the error of the first line missing a job tag |
| Jobs.Submatch | jobs.go:83-86 | the first capture of the leftmost match (the `[1]` of `FindStringSubmatch`), or nothing when the pattern does not match |
| Jobs.LineJobs | jobs.go:82-87 | a line of ten bytes or fewer gives nothing; a longer one gives its header, then the records of its allocation groups |
| Jobs.FragmentsJobs | jobs.go:89-124 | the records of the groups, in the order the groups were found |
| Jobs.FragmentJobs | jobs.go:90-123 | a group is decoded, then gives no record without a node list, one for a plain node name, and one per expanded host for a node list with `[` |
| Jobs.HostJobs | jobs.go:115-119 | one record per non-empty host name, in order |
| Jobs.ParseHeader | jobs.go:83-86 | computes the job id, user, account and state as the first capture of each tag's pattern, or fails on the first tag with no match; its properties are `ParseHeaderFails` and `HeaderOfTags` |
| Jobs.ParseHeaderFails | jobs.go:83-86 | a line fails exactly when one of its four tags has no match, with the first missing tag (job id, user, account, then state) as the error; on success the job id, user, account and state are the four tags' captures |
| Jobs.HeaderOfTags | jobs.go:71-86 | a line holding `JobId=<digits>`, `UserId=<word>(`, `Account=<text>` and `JobState=<text>`, each value a maximal run and each the leftmost match of its pattern, has exactly those four values as its header |
| Jobs.GetHostname | jobs.go:39-54 | the command's output split at newlines: at least one piece, no piece holds a newline, and the pieces joined by newlines are the whole output |
| Jobs.Fragments | jobs.go:87 | computes the texts of all non-overlapping matches of the group pattern, left to right; its properties are `FragmentsCoverGroups` and `AdjacentGroupSwallowed` |
| Jobs.DecodeFragment | jobs.go:90-109 | computes a group's cpus, gpus and memory from its own text; its properties are `FragmentCpus`, `FragmentGpus`, `FragmentMems` and `FragmentDefaults` |
| Jobs.CpuCount | jobs.go:90-101 | computes `last - first + 1` of the leftmost `CPU_IDs=<first>-<last>`, or 0 without one; see `FragmentCpus` |
| Jobs.GpuCount | jobs.go:91-105 | computes the number of the leftmost `GRES=gpu:<n>`, or 0 without one; see `FragmentGpus` |
| Jobs.MemCount | jobs.go:92-109 | computes the number of the leftmost whitespace-preceded `Mem=<n>`, or 0 without one; see `FragmentMems` |
| Jobs.NodeValue | jobs.go:111 | computes the non-space text after the leftmost whitespace-preceded `Nodes=`, or nothing without one; `NodeValueOf` ties it to the text |
| Jobs.NodeValueOf | jobs.go:73-111 | a group with a separator, then `Nodes=<v>` with `v` a maximal run of non-space characters, and no earlier such match, has exactly `v` as its node list, the host name a plain node list gives its record |
| Jobs.FragmentCpus | jobs.go:96-101 | a group's cpus are `last - first + 1` of its leftmost `CPU_IDs=<first>-<last>`, and zero or negative for a range written backwards |
| Jobs.FragmentGpus | jobs.go:102-105 | a group's gpus are the number of its leftmost `GRES=gpu:<n>` |
| Jobs.FragmentMems | jobs.go:106-109 | a group's memory is the number of its leftmost whitespace-preceded `Mem=<n>`, unconverted |
| Jobs.FragmentDefaults | jobs.go:90-94 | a resource whose pattern matches nowhere in the group is 0 |
| Jobs.GatherSpec | jobs.go:81-86 | the lines give a result exactly when every line does, and a failure carries the error of the first failing line |
| Jobs.GatherExtend | jobs.go:81-87 | one more line appends its records, or ends the whole parse with its error |
| Jobs.GatherFailureSticks | jobs.go:83-86 | once a line has failed, later lines do not change the result |
| Jobs.GatherConcat | jobs.go:81-127 | when every line succeeds, the result is the records of the lines concatenated in order |
| Jobs.ShortLineSkipped | jobs.go:82 | a line of at most ten bytes gives no records and no error |
| Jobs.LongLineNeedsTags | jobs.go:82-86 | a longer line fails exactly when its header does, and a line without a job id fails on the job id |
| Jobs.HostRecordsSpec | jobs.go:113-119 | the host names of a group's records are its non-empty expanded host names in order, and each record carries the line's header and the group's resources |
| Jobs.FragmentRecordsSpec | jobs.go:111-123 | every record of a group has the group's resources; a plain node name gives exactly one record; a bracketed list gives one record per non-empty line of its expansion |
| Jobs.FragmentsRecordsShareHeader | jobs.go:89-124 | every record of a line carries the line's job id, user, account and state |
| Jobs.FragmentsCoverGroups | jobs.go:72-87 | every position where an allocation group matches lies inside a group that was found |
| Jobs.AdjacentGroupSwallowed | jobs.go:72-87 | every group found ends with the separator it consumed, and no group found starts there |

## Left out

- The subprocesses `AccountsData`, `UsersData` and `JobsData` are not modelled. The parsers take their output as a string.
- The `scontrol show hostname` call inside `GetHostname` is not modelled. It is the parameter `expand: string -> string`, a function from a node list to the command's output. The model assumes the command always succeeds; a failure exits the process in the source.
- The Prometheus collectors (`New*Collector`, `Describe`, `Collect`) are not modelled. Neither is the mutex that serialises the job collector, nor the omission of zero-valued gauges on publication.
- Counts and sums are `nat`, `int` and `real` rather than `float64`. Rounding is not modelled, and neither is the loss of precision above 2^53 or overflow to infinity.
- Jobs.FragmentCpus: the cpus of a group are `int`, so a range written backwards gives a count of zero or less. This matches the source, which does no check.
- When a line longer than ten bytes lacks a job tag, the code indexes a missing submatch and panics, which ends the whole scrape. `ParseJobsMetrics` models this as a `Failure` naming the first missing tag. The records of the earlier lines are discarded, and no later line is read.
- Text.Lower lower-cases ASCII letters and the two non-ASCII letters whose lower case is ASCII (U+0130 and the Kelvin sign U+212A). Every other character is kept. This changes no comparison with the ASCII state words.
- Input that is not valid UTF-8 is not modelled. Strings are sequences of Unicode scalar values, and `Utf8Length` gives the byte length of their encoding.
- The regular-expression engine is not modelled in general. Each of the source's patterns has its own scanner, written to Go's leftmost-first semantics.
- The group pattern `\sNodes.*?GRES.*?\s` consumes the whitespace after `GRES=...`. A group that starts after a single space is therefore not found; `Jobs.AdjacentGroupSwallowed` states this. Scheduler output puts the groups in the order `Nodes= CPU_IDs= Mem= GRES=`, so `Mem=` lies inside the group text.
- Scan.FindAllFrom: no upper limit on the number of matches is modelled. The source asks for all of them (`-1`).
