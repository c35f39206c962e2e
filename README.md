# lip6tui client core, modelled in Dafny

lip6tui is a terminal job manager for two LIP6 clusters:

- **conv** runs SLURM;
- **hpc** runs OAR.

Every remote call goes through SSH. This project models what the client does with the answers it gets back. It does not model the calls themselves.

- **Duration codec** (`Duration`, `DurationFacts`): human duration text is parsed into whole minutes. Minutes are rendered three ways: as the OAR walltime `H:M:0`, as the SLURM time `HH:MM:00` / `D-HH:MM:00`, and as a human summary `2d 5h 30m`.
- **Validators** (`Validators`): the four character-class checks run on form input before it reaches a remote command line.
- **Configuration** (`Configuration`): the line-by-line TOML subset parser, and the `Config` object whose fields start at their defaults and are overwritten from the `[user]` and `[clusters]` sections.
- **Scheduler output** (`Remote`, `OarCommands`, `SlurmCommands`):
  - a remote reply is the triple `(stdout, stderr, rc)`;
  - the `oarstat -f` block parser keeps a current record and flushes it at each header and at the end;
  - the OAR clock arithmetic takes the current time as the parameter `now`;
  - the `squeue` and `sinfo` line readers;
  - submit, cancel and state-query results are turned into values the apps use.
- **Dashboard decisions** (`Tracker`, `Endpoint`, `JobList`, `ConvApp`, `HpcApp`):
  - the waiting screen's poll, one state machine shared by both schedulers, each with its own state names;
  - the connect step: node check, a budget of 30 URL attempts, port extraction and the rewrite to `localhost`;
  - the running/pending split, the rendering of table rows and the status line under them;
  - the connect-key dispatch and the hpc launch form;
  - the conv node summary;
  - the tunnel cleanup on disconnect.

Where the source works step by step, the model does too:

- Loops become methods with loop invariants, proved equal to a specification function:
  - `ParseToMinutes` and `SumTokens`;
  - `ParseTomlSimple`;
  - `ParseOarstatFull`;
  - the `squeue` and `sinfo` readers;
  - `WaitForUrl`;
  - the table redraws.
- Objects whose fields change become classes: `Config`, the two dashboards, the waiting screen, the session screen and its tunnel.

The properties are then proved about the specification functions. Examples:

- every rendering reads back through the duration parser;
- there is one OAR job per header line, in order;
- the two job tables partition the job list;
- each poll decision happens on exactly its states.

Python's text operations are modelled in `Text`:

- ASCII digits, letters and case mapping;
- the exact Python sets for whitespace and line breaks;
- `int()` with its sign, surrounding blanks and single underscores.

The generic sequence lemmas are in `Seqs`.

## Model

| member | source | states |
|---|---|---|
| Duration.DurationMinutes | lip6tui/duration.py:7-43 | the value `parse_to_minutes` returns: nothing for blank text, else the clock reading, the token sum or the bare hours of the stripped, lower-cased text; `ParseToMinutes` computes it and `DurationFacts` proves its readings |
| Duration.IsClock | lip6tui/duration.py:20 | what `^(\d+):(\d+):(\d+)$` accepts: three digit runs joined by colons; described by `ClockReadsBack` and `ShortClockRejected` |
| Duration.ClockMinutes | lip6tui/duration.py:22-23 | the minutes of an `H:M:S` text, hours*60+minutes with the seconds dropped; described by `ClockRead` |
| Duration.TotalMinutes | lip6tui/duration.py:25-35 | the running total of the token loop, weighting days by 1440, hours by 60 and minutes by 1; `SumTokens` computes it |
| Duration.Interpret | lip6tui/duration.py:16-43 | the reading of an already stripped, lower-cased text: none when blank, then clock, token sum or bare hours; described by `ClockRead`, `TokensRead`, `HoursRead` and `RejectRead` |
| Duration.MinutesToHms | lip6tui/duration.py:46-50 | the OAR walltime `H:M:0` with H = n div 60 and M = n mod 60; its fields and round trip are in `HmsIsClock` and `HmsRoundTrip` |
| Duration.MinutesToSlurm | lip6tui/duration.py:53-61 | the SLURM time `HH:MM:00` below a day and `D-HH:MM:00` from a day on; proved in `SlurmShortForm`, `SlurmDayForm` and `SlurmRoundTrip` |
| Duration.Pad2 | lip6tui/duration.py:60-61 | `:02d`: a value below 10 gets a leading zero; described by `Pad2Digits` |
| Duration.HumanParts | lip6tui/duration.py:68-77 | the `parts` list of `minutes_to_human`: the non-zero day, hour and minute counts with their units; described by `HumanPartsAreTokens` and `HumanCanonical` |
| Duration.MinutesToHuman | lip6tui/duration.py:64-78 | `0m` for n <= 0, else the non-zero day, hour and minute parts joined by blanks; proved in `HumanShape`, `HumanCanonical` and `HumanRoundTrip` |
| Duration.FormatElapsed | lip6tui/duration.py:81-86 | `N/A` for negative seconds, else the human summary of the whole minutes; proved in `FormatElapsedReadsBack` |
| Duration.UnitTokens | lip6tui/duration.py:27 | every match `re.findall` reports has a non-empty digit group and a unit among `d`, `h`, `m` |
| Duration.UnitTokensAt | lip6tui/duration.py:27 | a unit letter right after a run of digits gives a match there, and the scan resumes just past the unit |
| Duration.SumTokens | lip6tui/duration.py:25-37 | the loop's `total` is the sum of the tokens weighted 1440/60/1, and `matched` holds exactly when some token was found |
| Duration.ParseToMinutes | lip6tui/duration.py:7-43 | returns the stripped, lower-cased text's reading: the clock form first, else the token sum, else a bare number of hours, else nothing |
| DurationFacts.ClockRead | lip6tui/duration.py:20-23 | an `H:M:S` text is read as hours*60+minutes; the seconds are dropped |
| DurationFacts.ClockReadsBack | lip6tui/duration.py:20-23 | any text matching `^\d+:\d+:\d+$` is accepted with that clock value |
| DurationFacts.TokensRead | lip6tui/duration.py:25-37 | a text with unit tokens and no colon is read as the weighted sum of its tokens |
| DurationFacts.HoursRead | lip6tui/duration.py:39-41 | a bare digit string is read as that many hours |
| DurationFacts.RejectRead | lip6tui/duration.py:43 | a text that is no clock, has no token and is not a number gives no value |
| DurationFacts.BlankIsInvalid | lip6tui/duration.py:15-17 | empty or all-blank text gives no value |
| DurationFacts.PaddingIsIgnored | lip6tui/duration.py:15 | surrounding whitespace never changes the result |
| DurationFacts.StripFirst | lip6tui/duration.py:15 | parsing the stripped text gives the same result as parsing the text |
| DurationFacts.WordRejected | lip6tui/duration.py:25-43 | a text without any digit is rejected |
| DurationFacts.ShortClockRejected | lip6tui/duration.py:20-43 | a two-field clock such as `1:30` is rejected |
| DurationFacts.ExampleUnits | lip6tui/duration.py:27-37 | `1d 6h 30m` is 1440+360+30 = 1830 minutes |
| DurationFacts.ExampleHours | lip6tui/duration.py:40-41 | `90` is 5400 minutes |
| DurationFacts.ZeroMinutes | lip6tui/duration.py:27-37 | `0m` is read back as zero minutes |
| DurationFacts.DurationOfRendering | lip6tui/duration.py:27-37 | any space-joined list of `<digits><unit>` words reads back as the weighted sum of its tokens |
| DurationFacts.HmsIsClock | lip6tui/duration.py:46-50 | the OAR walltime of n has the fields n div 60, n mod 60 (below 60) and `0`, matches the clock pattern and stands for exactly n minutes |
| DurationFacts.HmsRoundTrip | lip6tui/duration.py:46-50 | parsing the OAR walltime of n gives back n |
| DurationFacts.ExampleHms | lip6tui/duration.py:46-50 | 90 minutes render as `1:30:0` |
| DurationFacts.Pad2Digits | lip6tui/duration.py:60-61 | `:02d` of a number below 100 is two digits with that value |
| DurationFacts.SlurmShortForm | lip6tui/duration.py:61 | under a day the SLURM time is `HH:MM:00` with no day part and stands for n minutes |
| DurationFacts.SlurmDayForm | lip6tui/duration.py:57-60 | from a day on, the SLURM time is `D-HH:MM:00` with D>=1 and HH<24, and D*1440+HH*60+MM = n |
| DurationFacts.SlurmRoundTrip | lip6tui/duration.py:53-61 | every SLURM time reads back as n, and it has a day part exactly when n >= 1440 |
| DurationFacts.ExampleSlurm | lip6tui/duration.py:57-60 | 1500 minutes render as `1-01:00:00` |
| DurationFacts.HumanPartsAreTokens | lip6tui/duration.py:71-77 | the `parts` list is the rendering of well-formed unit tokens |
| DurationFacts.HumanShape | lip6tui/duration.py:64-78 | for n>0 the summary has at least one part, scans back to exactly those parts, and the parts total n |
| DurationFacts.HumanCanonical | lip6tui/duration.py:68-77 | the parts are in strictly decreasing unit order, each non-zero, with hours below 24 and minutes below 60 |
| DurationFacts.HumanRoundTrip | lip6tui/duration.py:64-78 | parsing the human summary of n >= 0 gives back n |
| DurationFacts.FormatElapsedReadsBack | lip6tui/duration.py:81-86 | the result is `N/A` exactly for negative seconds; otherwise it reads back as the whole minutes |
| DurationFacts.HumanNotNA | lip6tui/duration.py:64-78 | a human summary is never the `N/A` marker |
| Validators.IsInt | lip6tui/validators.py:6-7 | `is_int`: the stripped value is a non-empty run of ASCII digits; described by `IntIsName`, `IntValue`, `ChecksIgnorePadding` and `BlankFailsAll` |
| Validators.IsName | lip6tui/validators.py:10-11 | `is_name`: the stripped value is non-empty and made of letters, digits, `_`, `.` and `-`; described by `NameIsPath`, `NameIsOneWord` and `AcceptedIsInert` |
| Validators.IsPath | lip6tui/validators.py:14-15 | `is_path`: the stripped value is non-empty and made of the name characters plus `~`, `/` and the blank; described by `AcceptedIsInert` and `PathMayHoldBlankAndTilde` |
| Validators.IsWalltime | lip6tui/validators.py:18-19 | `is_walltime`: the stripped value is three digit runs joined by colons; described by `WalltimeParses` and `HmsIsWalltime` |
| Validators.IntIsName | lip6tui/validators.py:6-15 | a value `is_int` accepts is also accepted by `is_name` and `is_path` |
| Validators.NameIsPath | lip6tui/validators.py:10-15 | a value `is_name` accepts is accepted by `is_path` |
| Validators.AcceptedIsInert | lip6tui/validators.py:10-15 | a value `is_name` accepts holds none of the characters `IsShellMeta` lists once stripped; a value `is_path` accepts holds at most two of them, the blank and `~` |
| Validators.PathMayHoldBlankAndTilde | lip6tui/validators.py:14-15 | `is_path` accepts `~/my job.sh`, which holds a blank and a `~` |
| Validators.NameIsOneWord | lip6tui/validators.py:10-11 | a value `is_name` accepts holds no whitespace once stripped |
| Validators.ChecksIgnorePadding | lip6tui/validators.py:6-19 | surrounding whitespace changes none of the four verdicts |
| Validators.BlankFailsAll | lip6tui/validators.py:6-19 | empty or blank input fails every check |
| Validators.IntValue | lip6tui/validators.py:6-7 | `int()` of a value `is_int` accepts is the value of its digits |
| Validators.IntReadsAsHours | lip6tui/validators.py:6-7 | the duration parser reads a value `is_int` accepts as that many hours |
| Validators.WalltimeParses | lip6tui/validators.py:18-19 | the duration parser reads a value `is_walltime` accepts as its clock |
| Validators.HmsIsWalltime | lip6tui/validators.py:18-19 | every OAR walltime the client renders passes `is_walltime` and stands for its minutes |
| Configuration.Classify | lip6tui/config.py:16-36 | what the loop body makes of one line once stripped: skip, a section header with its trimmed name, or a string, bool or int assignment, tested in that order; `ReadLine` computes it |
| Configuration.ParseToml | lip6tui/config.py:11-37 | the dictionary of `_parse_toml_simple`: the line steps folded over `splitlines()`; `ParseTomlSimple` computes it and `SectionContents`, `TopLevelContents` and `LaterAssignWins` say what it holds |
| Configuration.Loaded | lip6tui/config.py:43-63 | the settings a new object ends with: the defaults, merged with the parsed file when there is one; `LoadConfig` builds it |
| Configuration.Merge | lip6tui/config.py:56-63 | the six settings after `_load` on a parsed file, up to the `.get` that raises on a scalar section; described by `AbsentKeyKept`, `PresentKeyTaken` and `FailedLoadStops` |
| Configuration.ReadLine | lip6tui/config.py:16-36 | what one line does, tested in the source's order: skip a blank or comment line, open a section, assign a string, bool or int, else nothing |
| Configuration.ParseTomlSimple | lip6tui/config.py:11-37 | the loop's dictionary is the fold of the line steps over `splitlines()` |
| Configuration.IgnorableIsSkip | lip6tui/config.py:16-18 | a blank line or `#` comment, once stripped, is skipped |
| Configuration.IgnorableLine | lip6tui/config.py:16-18 | inserting such a line anywhere in a file leaves the result unchanged |
| Configuration.SkipChangesNothing | lip6tui/config.py:17-18 | a skipped line between any two stretches of lines changes nothing |
| Configuration.HeaderLine | lip6tui/config.py:19-24 | `[name]` opens the section with the trimmed name |
| Configuration.SectionContents | lip6tui/config.py:19-36 | after a header the section is reset to empty and holds exactly the assignments that follow it, up to the next header |
| Configuration.TopLevelContents | lip6tui/config.py:13-14 | assignments before any header land in the top-level map |
| Configuration.KeyLineRead | lip6tui/config.py:25-36 | `key = value` assigns the value its pattern reads to that key |
| Configuration.StringLine | lip6tui/config.py:25-28 | `key = "…"` stores the text between the quotes, whatever it holds |
| Configuration.BoolLine | lip6tui/config.py:29-32 | `true`/`false` in any case become a boolean |
| Configuration.IntLine | lip6tui/config.py:33-36 | a run of digits becomes its integer |
| Configuration.LaterAssignWins | lip6tui/config.py:27 | a repeated key keeps its last value |
| Configuration.AbsentKeyKept | lip6tui/config.py:56-63 | each setting keeps its previous value when its key is absent |
| Configuration.PresentKeyTaken | lip6tui/config.py:56-63 | each setting whose key is present takes the file's value |
| Configuration.FailedLoadStops | lip6tui/config.py:56-59 | when `user` or `clusters` is a plain value, the `.get` on it raises and the settings after that point keep their values |
| Configuration.OtherSectionsIgnored | lip6tui/config.py:56-63 | only the `user` and `clusters` entries affect the load |
| Configuration.TopLevelSectionNameRaises | lip6tui/config.py:56-59 | a top-level key named `user` or `clusters` makes the load raise |
| Configuration.EmptyFileKeepsDefaults | lip6tui/config.py:43-63 | an empty file parses to an empty dictionary and leaves the defaults |
| Configuration.Config.constructor | lip6tui/config.py:43-49 | the defaults `""`, `""`, `ssh.lip6.fr`, `True`, `True`, `""` |
| Configuration.Config.Load | lip6tui/config.py:52-63 | a missing file changes nothing; otherwise the fields become the merge of the parsed file onto their old values, and `ok` is false exactly where the source raises |
| Configuration.LoadConfig | lip6tui/config.py:66-67 | a new object holding the defaults merged with the file |
| Remote.SubmitOutcome | lip6tui/hpc/commands.py:132-136 | the `(job_id, error_msg)` pair: the stripped output when it is all digits, else the stripped error text or `Failed to submit job`; described by `SubmitExactlyOne`, `SubmitAccepts` and `SubmitRefuses` |
| Remote.CancelOutcome | lip6tui/hpc/commands.py:139-152 | the error string of a cancel: the stripped error text on a non-zero status, else empty; described by `CancelSucceeds` and `CancelReported` |
| Remote.SubmitExactlyOne | lip6tui/hpc/commands.py:116-120 | a submission gives a job number or an error message, never both and never neither |
| Remote.SubmitAccepts | lip6tui/hpc/commands.py:132-136 | a job number is returned exactly when the stripped output is all digits, and it is that output |
| Remote.SubmitRefuses | lip6tui/conv/commands.py:109-113 | otherwise the error is the stripped error text, or `Failed to submit job` when that is empty |
| Remote.CancelSucceeds | lip6tui/hpc/commands.py:139-152 | a cancel reports no error when the status is zero, else the stripped error text |
| Remote.CancelReported | lip6tui/hpc/commands.py:139-152 | a cancel reports an error exactly when the status is non-zero and the error text is not blank; the error has no blanks at its ends, and `stdout` never matters |
| Remote.SilentCancelFailure | lip6tui/conv/commands.py:140-147 | a failed cancel with an empty error stream reads as a success |
| OarCommands.ElapsedMinutes | lip6tui/hpc/commands.py:23-33 | `elapsed_minutes` at time `now`: nothing for a missing, non-integer or non-positive stamp, else max(0, (now - stamp) div 60); described by `ElapsedBounds` and `ElapsedNone` |
| OarCommands.WallMinutes | lip6tui/hpc/commands.py:36-45 | `wall_minutes`: the first two `:` fields read by `int()` as hours and minutes, or nothing; described by `WallOfClock`, `WallOfHms` and `WallNeedsTwoFields` |
| OarCommands.RemainingMinutes | lip6tui/hpc/commands.py:47-53 | `remaining_minutes`: max(0, wall - elapsed) when both exist; described by `RemainingFacts` |
| OarCommands.Apply | lip6tui/hpc/commands.py:70-83 | what a body line does to the open record: the first key of the if/elif chain found in the line sets its field; `ApplyLine` computes it and `ApplyField` and `ApplyKeepsId` describe it |
| OarCommands.Fill | lip6tui/hpc/commands.py:68-83 | the record a header opens, after the body lines that follow it; described by `FillKeepsId`, `FieldUntouched` and `LastSetterWins` |
| OarCommands.ParseOarstat | lip6tui/hpc/commands.py:56-87 | the job list of `parse_oarstat_full`: the header/body scan over `splitlines()` with the final flush; `ParseOarstatFull` computes it and `OneJobPerHeader`, `LastSetterWins` and the other scan lemmas say what it holds |
| OarCommands.ElapsedBounds | lip6tui/hpc/commands.py:23-33 | with a positive start stamp the elapsed time is the whole minutes since then, and zero in the first minute or before the stamp |
| OarCommands.ElapsedNone | lip6tui/hpc/commands.py:23-33 | there is no elapsed time exactly when the stamp is no integer or is not positive |
| OarCommands.WallOfClock | lip6tui/hpc/commands.py:36-45 | a `H:M:S` walltime counts hours*60+minutes |
| OarCommands.WallAgreesWithParser | lip6tui/hpc/commands.py:36-45 | on such a walltime the job's count and the duration parser agree |
| OarCommands.WallOfHms | lip6tui/hpc/commands.py:36-45 | the walltime the client submits for n minutes counts n |
| OarCommands.WallNeedsTwoFields | lip6tui/hpc/commands.py:39-41 | a walltime without a colon gives no count |
| OarCommands.RemainingFacts | lip6tui/hpc/commands.py:47-53 | the remaining time exists exactly when both inputs do; it is the walltime minus the elapsed time, and zero once the walltime has passed |
| OarCommands.HeaderId | lip6tui/hpc/commands.py:62 | the job number a header line gives is a run of digits |
| OarCommands.HeaderLine | lip6tui/hpc/commands.py:62 | `Job_Id`, optional blanks, `:`, optional blanks and digits give those digits |
| OarCommands.CoreCount | lip6tui/hpc/commands.py:80-83 | the core count found is digits that follow `core=` in the line |
| OarCommands.NameLine | lip6tui/hpc/commands.py:70-71 | a `name =` line sets the name to the stripped text after its `=` |
| OarCommands.ApplyLine | lip6tui/hpc/commands.py:70-83 | one body line sets the field its key names, tested in the source's priority |
| OarCommands.ScanLine | lip6tui/hpc/commands.py:61-83 | one loop iteration is one step of the scan |
| OarCommands.ParseOarstatLines | lip6tui/hpc/commands.py:56-87 | the loop and the final flush build the scan's job list |
| OarCommands.ParseOarstatFull | lip6tui/hpc/commands.py:56-87 | the job list of the `oarstat -f` text split into lines |
| OarCommands.OarstatReply | lip6tui/hpc/commands.py:93-95 | the job list `fetch_jobs` returns for a reply: none on a non-zero status or blank output, else the parse of the output; `FetchJobs` computes it |
| OarCommands.FetchJobs | lip6tui/hpc/commands.py:90-95 | no jobs on a non-zero status or blank output, else the parsed listing |
| OarCommands.OneJobPerHeader | lip6tui/hpc/commands.py:61-87 | the jobs' numbers are exactly the header numbers, in order of appearance |
| OarCommands.PreambleIgnored | lip6tui/hpc/commands.py:68-69 | lines before the first header do not affect the result |
| OarCommands.Block | lip6tui/hpc/commands.py:62-67 | a header flushes the previous record and opens a fresh one that the following body fills |
| OarCommands.LastBlockFlushed | lip6tui/hpc/commands.py:85-87 | the last record is returned at the end of the input |
| OarCommands.ApplyKeepsId | lip6tui/hpc/commands.py:70-83 | a body line never changes the job number |
| OarCommands.FillKeepsId | lip6tui/hpc/commands.py:70-83 | nor does any sequence of body lines |
| OarCommands.ApplyField | lip6tui/hpc/commands.py:70-83 | a line changes only the field it names, which is set to the line's value |
| OarCommands.FieldUntouched | lip6tui/hpc/commands.py:70-83 | a field no body line names keeps its value |
| OarCommands.LastSetterWins | lip6tui/hpc/commands.py:70-83 | a field holds the value of the last line that names it |
| SlurmCommands.SqueueRecord | lip6tui/conv/commands.py:44-55 | the record one `squeue` line gives, by its number of `|` fields; described by `FullLine`, `PartialLine` and `ShortLine` |
| SlurmCommands.SqueueJobs | lip6tui/conv/commands.py:43-56 | the records of the `squeue` lines, in line order; `ReadSqueueLines` computes it and `SqueueJobsAppend` and `SqueueJobsBound` describe it |
| SlurmCommands.SqueueReply | lip6tui/conv/commands.py:35-56 | the job list `fetch_jobs` returns for a reply; `FetchJobs` computes it |
| SlurmCommands.NodeRows | lip6tui/conv/commands.py:69-77 | the node records of the `sinfo` body lines, in line order; `ReadNodeLines` computes it and `NodeRowsAppend` and `NodeRowsBound` describe it |
| SlurmCommands.SinfoReply | lip6tui/conv/commands.py:59-77 | the node list `fetch_cluster_status` returns for a reply; `FetchClusterStatus` computes it and `HeaderDiscarded` and `NodeLine` say what it holds |
| SlurmCommands.JobState | lip6tui/conv/commands.py:150-159 | `get_job_state`: the stripped `squeue` answer, or the stripped `sacct` answer when that is blank; described by `SqueueAnswerWins` and `BlankState` |
| SlurmCommands.ReadSqueueLine | lip6tui/conv/commands.py:44-55 | a line gives a full record from eight fields, the first four from four fields, nothing below |
| SlurmCommands.ReadSqueueLines | lip6tui/conv/commands.py:43-56 | the loop yields, in order, the records the lines give |
| SlurmCommands.FetchJobs | lip6tui/conv/commands.py:35-56 | no jobs on a non-zero status or blank output, else the records of the stripped output's lines |
| SlurmCommands.FullLine | lip6tui/conv/commands.py:44-50 | eight or more bar-separated fields give the record of the first eight |
| SlurmCommands.PartialLine | lip6tui/conv/commands.py:51-55 | four to seven fields give id, name, state and node, with the other four fields empty |
| SlurmCommands.ShortLine | lip6tui/conv/commands.py:44-55 | fewer than four fields give nothing |
| SlurmCommands.SqueueJobsAppend | lip6tui/conv/commands.py:43-56 | the records follow the line order: a longer listing reads as its parts in turn |
| SlurmCommands.SqueueJobsBound | lip6tui/conv/commands.py:43-56 | there are never more records than lines |
| SlurmCommands.NoOutputNoJobs | lip6tui/conv/commands.py:40-41 | a failed or silent `squeue` gives no jobs |
| SlurmCommands.NodeRow | lip6tui/conv/commands.py:70-76 | the node record of one `sinfo` line: its first seven whitespace-separated tokens, or nothing when it has fewer; described by `NodeLine` |
| SlurmCommands.ReadNodeLine | lip6tui/conv/commands.py:70-76 | seven or more whitespace-separated tokens give the node record of the first seven |
| SlurmCommands.ReadNodeLines | lip6tui/conv/commands.py:69-77 | the loop yields, in order, the node records of the lines |
| SlurmCommands.FetchClusterStatus | lip6tui/conv/commands.py:59-77 | no nodes on a non-zero status or blank output, else the records of every line after the first |
| SlurmCommands.HeaderDiscarded | lip6tui/conv/commands.py:68-69 | the first line is discarded whatever it holds |
| SlurmCommands.NodeLine | lip6tui/conv/commands.py:70-76 | a row of seven or more words gives those words as the node's fields |
| SlurmCommands.NodeRowsBound | lip6tui/conv/commands.py:69-77 | there are never more nodes than lines |
| SlurmCommands.NodeRowsAppend | lip6tui/conv/commands.py:69-77 | the nodes follow the line order |
| SlurmCommands.SqueueAnswerWins | lip6tui/conv/commands.py:150-159 | a non-blank `squeue` answer is the state, and the `sacct` answer does not matter |
| SlurmCommands.BlankState | lip6tui/conv/commands.py:150-159 | the state is blank exactly when both answers are blank |
| Tracker.Decide | lip6tui/conv/app.py:195-200 | what a poll decides on the state read: connect on the running name, fail on a failure name, else keep waiting; described by `DecideCases`, `BlankKeepsWaiting` and `VocabulariesApart` |
| Tracker.Shown | lip6tui/conv/app.py:194 | the caption `state or "PENDING"`; described by `ShownFacts` and `BlankKeepsWaiting` |
| Tracker.PollEffect | lip6tui/hpc/app.py:167-172 | what the app is asked to do after a poll: nothing, start the connection for the job, or report `Job <id> failed: <state>`; `WaitingScreen.Poll` applies it |
| Tracker.VocabulariesWellFormed | lip6tui/conv/app.py:195-198 | for both schedulers the running state is not a failure state and no state name is blank |
| Tracker.DecideCases | lip6tui/conv/app.py:195-200 | a poll connects exactly on the running state, fails exactly on a failure state, and keeps waiting on anything else |
| Tracker.BlankKeepsWaiting | lip6tui/conv/app.py:194-200 | a blank answer keeps waiting and shows `PENDING` |
| Tracker.ShownFacts | lip6tui/conv/app.py:194 | the caption is never blank, and it is the state whenever there is one |
| Tracker.VocabulariesApart | lip6tui/hpc/app.py:167-170 | a state one scheduler connects on means keep waiting to the other |
| Tracker.StopIsNotPoll | lip6tui/conv/app.py:190-207 | a poll never gives the stop-waiting warning, and it stays on screen exactly when it decides to keep waiting |
| Tracker.WaitingScreen.constructor | lip6tui/hpc/app.py:139-149 | a new screen shows `PENDING` |
| Tracker.WaitingScreen.Poll | lip6tui/hpc/app.py:162-172 | the caption is the state or `PENDING`; the screen is left on connect and on failure, with the matching effect |
| Tracker.WaitingScreen.StopWaiting | lip6tui/hpc/app.py:174-176 | the screen is left with the still-queued warning; nothing is cancelled |
| Endpoint.PortOf | lip6tui/conv/app.py:564-565 | the port to forward: the digits of the first `:<digits>` followed by `/`, else the default; described by `PortOfJupyterUrl`, `LocalKeepsPort` and `NoColonUrl` |
| Endpoint.LocalUrl | lip6tui/conv/app.py:566 | the URL with its first `http://<host>:` prefix replaced by `http://localhost:`; described by `LocalAt` and `LocalOfJupyterUrl` |
| Endpoint.ConnectOutcome | lip6tui/conv/app.py:545-568 | how `_connect_to` ends: no node, no Jupyter, or a session with the first URL found, its local form and its port; `ConnectTo` computes it and `SessionNeedsUrl` says when a session opens |
| Endpoint.FirstUrl | lip6tui/conv/app.py:552-558 | a URL found is one of the answers within the 30-attempt budget |
| Endpoint.Attempts | lip6tui/conv/app.py:553-556 | the number of attempts stays within the budget |
| Endpoint.AttemptStep | lip6tui/conv/app.py:553-556 | a blank answer moves on to the next attempt; a non-blank one ends the wait |
| Endpoint.WaitForUrl | lip6tui/conv/app.py:552-558 | the loop makes 1 to 30 attempts, all but the last blank; it returns the first non-blank answer, or blank after 30 blank ones |
| Endpoint.BudgetBound | lip6tui/conv/app.py:553 | answers past the 30th are never looked at |
| Endpoint.PortSearch | lip6tui/conv/app.py:564 | the port found is a run of digits |
| Endpoint.PortSearchSkip | lip6tui/conv/app.py:564 | text before the first colon cannot hold the port |
| Endpoint.PortAt | lip6tui/conv/app.py:564 | `:<digits>/` gives those digits |
| Endpoint.PortOfJupyterUrl | lip6tui/conv/app.py:564-565 | for `http://host:port/...` the port is the URL's port |
| Endpoint.HostFrom | lip6tui/conv/app.py:566 | the match found starts with `http://` and has a colon after it |
| Endpoint.LocalOfJupyterUrl | lip6tui/conv/app.py:566 | `http://host:port/...` becomes `http://localhost:port/...` |
| Endpoint.LocalAt | lip6tui/conv/app.py:566 | the first `http://<host>:` prefix is replaced by `http://localhost:` |
| Endpoint.LocalKeepsPort | lip6tui/conv/app.py:564-566 | the rewrite keeps the port |
| Endpoint.NoColonUrl | lip6tui/conv/app.py:564-566 | a URL without a colon gives the default port and is not rewritten |
| Endpoint.NoHost | lip6tui/conv/app.py:566 | a URL without a colon holds no host prefix |
| Endpoint.ConnectTo | lip6tui/conv/app.py:545-568 | an unusable node stops before any URL attempt; otherwise the outcome is no Jupyter or a session with the first URL, its local form and its port |
| Endpoint.SessionNeedsUrl | lip6tui/conv/app.py:546-562 | a session opens exactly when the node passes `is_name` and some answer within the budget is non-blank, and its URL is one of those answers |
| Endpoint.Tunnel.constructor | lip6tui/conv/app.py:252-259 | a tunnel starts alive and not signalled |
| Endpoint.Tunnel.Terminate | lip6tui/conv/app.py:278 | `terminate()` sends one request and does not wait for the exit |
| Endpoint.Tunnel.Exit | lip6tui/conv/app.py:277 | the process ends, after which `poll()` is no longer `None` |
| Endpoint.SessionScreen.constructor | lip6tui/hpc/app.py:189-196 | a new session screen with its tunnel, if one was started |
| Endpoint.SessionScreen.Disconnect | lip6tui/hpc/app.py:236-242 | the screen closes; the tunnel is signalled once if it exists and is alive, and otherwise not at all |
| ConvApp.RunningRow | lip6tui/conv/app.py:457 | a running-table row: id, name cut to 20, node cut to 12, elapsed, time limit, time left; `Dashboard.UpdateTables` draws one per running job |
| ConvApp.PendingRow | lip6tui/conv/app.py:462 | a pending-table row: id, name cut to 20, time limit, reason cut to 20; `Dashboard.UpdateTables` draws one per pending job |
| ConvApp.ConnectDispatch | lip6tui/conv/app.py:469-477 | what the connect key does on the job list: warn, connect to the one running job, or open the picker; described by `DispatchCases` |
| ConvApp.Summarize | lip6tui/conv/app.py:319-323 | the node counts under the status table: total, idle, mixed, allocated but not mixed, down or drained; described by `SummaryBounds` and `CountsOverlap` |
| JobList.StatusText | lip6tui/conv/app.py:445-448 | the status line of both dashboards (also hpc/app.py:305-308): `No jobs found`, or the job count followed by ` job(s) found`; described by `StatusCounts` |
| JobList.StatusCounts | lip6tui/conv/app.py:445-448 | the status line says no jobs exactly when the list is empty, and otherwise leads with digits worth the number of jobs |
| ConvApp.SummaryText | lip6tui/conv/app.py:324-326 | the summary line `<total> nodes: <idle> idle, <mixed> mixed, <alloc> allocated, <down> down/drain`, from the counts `Summarize` gives |
| ConvApp.TablesPartition | lip6tui/conv/app.py:450-452 | every job is in exactly one table: `RUNNING` jobs in the running one, the others in the pending one |
| ConvApp.TablesKeepOrder | lip6tui/conv/app.py:451-452 | each table keeps the listing's order |
| ConvApp.DispatchCases | lip6tui/conv/app.py:469-477 | no running job warns; exactly one connects to that job, by its number and name; more open the picker on the running jobs in listing order, all of them and no other |
| ConvApp.SummaryBounds | lip6tui/conv/app.py:319-323 | no count exceeds the total, and mixed plus allocated never exceeds it, since `mix` states are not counted as allocated |
| ConvApp.CountsOverlap | lip6tui/conv/app.py:320-321 | a state naming both `idle` and `mix` is counted twice |
| ConvApp.PollDecision | lip6tui/conv/app.py:193-200 | the waiting screen's decision on the SLURM state that `squeue`, else `sacct`, reports; described by `SqueueDecides` and `SilentJobWaits` |
| ConvApp.SqueueDecides | lip6tui/conv/app.py:193-200 | once `squeue` names a state, the `sacct` answer cannot change the decision |
| ConvApp.SilentJobWaits | lip6tui/conv/app.py:193-200 | a job both queries are silent about is still waited for |
| ConvApp.Dashboard.constructor | lip6tui/conv/app.py:415 | the job list starts empty |
| ConvApp.Dashboard.UpdateTables | lip6tui/conv/app.py:450-462 | the two tables are redrawn from the running and pending jobs, one row per job with its cut fields |
| ConvApp.Dashboard.Refresh | lip6tui/conv/app.py:440-448 | the job list is the fetched one, the tables are redrawn from it, and the status line counts it |
| ConvApp.Dashboard.ConnectChoice | lip6tui/conv/app.py:469-477 | the dispatch on the current job list |
| ConvApp.Connect | lip6tui/conv/app.py:545-568 | the connect step with default port 9888 |
| HpcApp.ModeAt | lip6tui/hpc/app.py:86-89 | the mode of the pressed radio button, Jupyter when none is pressed; used by `SubmitForm` and described by `ModeChoice` |
| HpcApp.SubmitForm | lip6tui/hpc/app.py:72-96 | where the launch form leads: bad cores, bad duration, the script screen for the custom mode, or a launch with the cores, the OAR walltime and the mode; described by `CoresCheckedFirst`, `DurationChecked`, `AcceptedForm` and `ModeChoice` |
| HpcApp.ScriptPath | lip6tui/hpc/app.py:123-126 | the stripped script path when `is_path` accepts it, else nothing; described by `ScriptPathSafe` |
| HpcApp.RunningRow | lip6tui/hpc/app.py:316-319 | a running-table row at time `now`: id, name cut to 20, node cut to 12, cores or `-`, and the elapsed and remaining time cells; described by `RunningRowFacts` |
| HpcApp.PendingRow | lip6tui/hpc/app.py:324 | a pending-table row: id, name cut to 20, and the walltime or `N/A`; `Dashboard.UpdateTables` draws one per pending job |
| HpcApp.ConnectDispatch | lip6tui/hpc/app.py:331-339 | what the connect key does on the job list: warn, connect to the one running job, or open the picker; described by `DispatchCases` |
| HpcApp.CoresCheckedFirst | lip6tui/hpc/app.py:78-80 | bad cores are reported whatever the duration says |
| HpcApp.DurationChecked | lip6tui/hpc/app.py:81-84 | with good cores, the form fails on the duration exactly when the parser rejects it |
| HpcApp.AcceptedForm | lip6tui/hpc/app.py:72-96 | a form whose cores pass `is_int` and whose duration parses is accepted, with the cores as `int()` reads them and a walltime that passes `is_walltime` and stands for the duration entered |
| HpcApp.ModeChoice | lip6tui/hpc/app.py:86-96 | the custom button alone leads to the script screen; no pressed button and the Jupyter button (index 0) launch Jupyter; the terminal button launches a terminal |
| HpcApp.ScriptPathSafe | lip6tui/hpc/app.py:123-126 | a script path is taken exactly when `is_path` accepts it, stripped; of the characters `IsShellMeta` lists it can hold only the blank and `~` |
| HpcApp.TablesPartition | lip6tui/hpc/app.py:311-312 | every job is in exactly one table: `Running` jobs in the running one, the others in the pending one |
| HpcApp.TimeCell | lip6tui/hpc/app.py:317-318 | a time cell: the human form of the minutes, or `N/A` when there is none; described by `TimeCellReadsBack` |
| HpcApp.TimeCellReadsBack | lip6tui/hpc/app.py:317-318 | a time cell is `N/A` exactly when there is no time, and otherwise reads back as that time |
| HpcApp.RunningRowFacts | lip6tui/hpc/app.py:316-319 | a running row has six cells; the cores cell is `-` for an empty count; the time cells are `N/A` exactly when there is no time, and the remaining cell reads back as the walltime minus the elapsed time |
| HpcApp.DispatchCases | lip6tui/hpc/app.py:331-339 | no running job warns; exactly one connects to that job by its number; more open the picker on the running jobs in listing order, all of them and no other |
| HpcApp.PollDecision | lip6tui/hpc/app.py:165-172 | the waiting screen's decision on the stripped `oarstat` state answer, in OAR's state names; described through `Tracker.DecideCases` |
| HpcApp.Dashboard.constructor | lip6tui/hpc/app.py:274 | the job list starts empty |
| HpcApp.Dashboard.UpdateTables | lip6tui/hpc/app.py:310-324 | the two tables are redrawn from the running and pending jobs at time `now` |
| HpcApp.Dashboard.Refresh | lip6tui/hpc/app.py:299-308 | the job list is the fetched one, the tables are redrawn from it, and the status line counts it |
| HpcApp.Dashboard.ConnectChoice | lip6tui/hpc/app.py:331-339 | the dispatch on the current job list |
| HpcApp.Connect | lip6tui/hpc/app.py:397-421 | the connect step with default port 8888 |

## Left out

- **Remote calls.** `lip6tui/ssh.py` is not part of this model: no processes, timeouts or byte decoding. A remote call is the reply it returns, given as an input. The remote shell pipelines inside the command strings are not modelled: `grep -oP`, `awk`, `tr`, `tail` and the heredoc job scripts. This includes the `2>&1`/`2>/dev/null` redirections, which decide what reaches `stderr`.
- **Command arguments.** The query functions (`get_job_node`, `get_jupyter_url`, `get_job_state`) are modelled only as the stripped output they return. Their job number and user name arguments appear only in command strings, so they are not modelled.
- **Textual user interface.** Screens, layout, navigation, notifications and the job picker are not modelled. The node table rows of the cluster status screen, the intermediate `Fetching jobs...` status text and the widget files are not modelled either.
- **Event loop.** Timers, workers and `asyncio.sleep` are not modelled. That covers the two-second pause between URL attempts and the elapsed-time ticker. The current time appears only as the `now` parameter.
- **Successive answers.** The successive answers of `get_jupyter_url` are given up front as a sequence. Blank answers past the end of it stand for attempts that still find nothing.
- **Local programs.** The `os.system` terminal modes and SSH login, browser launching, and the creation of the tunnel process are not modelled.
- **Config file access.** Reading the configuration file is not modelled. The file is given as its text, or as absent.
- **conv launch form.** The conv app's launch form and custom-script screen are not part of this model: the GPU type choice and the job name check. They are not among the decisions modelled here. Their validators and the SLURM rendering they use are modelled.
- **Python's Unicode classes.** `\d`, `\w`, `str.lower()` and `int()` digits are modelled as their ASCII parts. Whitespace and line breaks use Python's exact sets.
- Configuration.BoolLine: (and Configuration.ReadLine) the bool pattern's `re.IGNORECASE` is modelled as ASCII case-insensitive matching. Non-ASCII letters that Python matches case-insensitively (such as `ſ` for `s`) are not covered.
- **OAR job updates.** The `OARJob` records that `parse_oarstat_full` updates field by field are modelled as record values. The current record is never shared before it is appended, so in-place update and value update agree.
- Endpoint.Tunnel.Terminate: the process does not end at the request. It ends at a separate `Exit`, so the race between `poll()` and `terminate()` is not modelled.
- HpcApp.ModeChoice: this lemma and the launch form require a radio index below 3. The radio set has three buttons, so `modes[idx]` cannot raise there.
- Tracker.WaitingScreen.Poll: requires the screen to still be up: the poll timer runs only while the screen is mounted.
- ConvApp.CountsOverlap: shows the double count on one state text, `idle+mix`, rather than describing every overlapping state.
