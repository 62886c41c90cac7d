# cfirewalld: a switch protocol and a compiler, verified

cfirewalld reloads a packet filter without ever leaving it half configured. A compiler turns shell
declarations into a candidate ruleset (`CFWTMP_` chains and sets of the next version). A protocol
then hooks the candidate chains beside the live ones (`CFW_`), unhooks the live ones, and renames:
live to outgoing (`CFWDEL_`), candidate to live. This project models both halves and joins them:

* **Any moment of a reload.** Every packet meets, at every built-in chain, the verdict it met before
  or the verdict of the new ruleset (`Verdicts.OldOrNew`); a failed build is inert
  (`Verdicts.FailedBuildIsInert`). Killed anywhere, a reload can be started over if and only if a commit
  has begun or every live delegate is still hooked (`ReloadProof.ReloadStates`).
* **Any number of reloads.** Commits interrupted anywhere resume to the same end
  (`Commit.StoppedCommitsEndAlike`); whatever a sequence of reloads leaves, the next one can start
  from it (`BetweenRuns.ReloadsCanStart`), and nothing candidate, outgoing or outdated is reachable
  from the built-in chains between runs.
* **When it succeeds.** A reload succeeds if and only if the declarations compile, the kernel has the
  tables and chains they ask for and the built-in chains of the hooks they use, and the operator
  confirms (`Success.ReloadSucceedsIff`); a host the firewall never touched can start
  (`Success.FirstReloadCanStart`).
* **What the new verdict is.** After a confirmed reload each built-in chain first applies the rules
  other programs had there when it began, and then decides every packet as the declarations for its
  hook, read directly with no sets, expansion, kernel chains or restore streams, say
  (`Declared.DeclarationsAreEnforced`).
* **What is nobody else's business.** No state of any reload touches a rule, chain or set of another
  program (`OtherPrograms.ReloadKeepsOthers`).

`dafny verify dfyconfig.toml` checks the whole project.

## How it is laid out

The kernel. `Netfilter` holds chains, rules, sets and the verdict of a packet (`Walk`, `Fate`: the
first terminal match, through jumps and returns); `Kernel` the commands `-N -A -D -F -X -E` and a
restored table block, each with its refusals; `Machines` a machine of several tables, sets, step
file and version file, and a pass over all its tables; `Hosts` the class the scripts act on. A
script is a method on a `Host`. The host keeps, besides its state, the list of all states it went
through (`past`), and each method's contract equates both with a specification function (`SwitchRun`,
`CommitRun`, `CleanupRun`, `ReloadRun`, ...) that gives the whole trace of a run, including where
it was refused. The theorems are about those traces, so they speak of every intermediate state.

The protocol. `Generations` (prefixes), `Commit` and `CommitProof`, `Delegates`, `Apply` and
`ApplyProof`, `Tidy`, `Cleanup`, `CleanupProof`, `CleanupSteps`, `Harmless`, `Zones`, `Building`, and
their composition in `Switching`, `Turnover`, `Reload`, `Resting`, `ReloadProof`, `ReloadResults`,
`Verdicts`, `Disturbed`, `BetweenRuns`, `OtherPrograms`.

The compiler. `Declarations`, `Resolution`, `AliasSets`, `Probing`, `Quoting`, `ChainNames`,
`RuleBuilding`, `RuleText`, `RuleReader`, `SetText`, `Restoring`, `Meaning`, `Shadowing`, `Compilation`, `Compiling`.

Their meeting. `Submitting` (what the compiler submits is what the protocol demands of a build),
`Streams` (what it prints is read as just that),
`Loading` (what the kernel holds once it is taken), `Acceptance` (when it is taken), `EndToEnd`,
`Enforcement`, `Declared`, `Success`, and `Example` (a reload that meets every assumption). `Samples`
holds single inputs. `Seqs`, `Sorting`, `Text` and `Grouping` are helpers.

## What the theorems assume

The code does not enforce these, so they are preconditions, gathered in `Resting.CanStart`,
`Building.CandidateLoad` and `Enforcement.Careful`:

* A run starts from a tidy machine, or from a commit that was stopped and can be resumed; every run of
  the model ends in such a state, and killed before its end leaves one unless a live delegate was
  unhooked just then. Tidy includes that rules put there by other programs never jump to
  a `CFW_`, `CFWTMP_` or `CFWDEL_` chain and match no versioned set. Programs other than these scripts
  change nothing during a reload. The tables visited are all the tables there are. The theorems about
  the verdict before a reload ask besides that no candidate or outgoing chain can be reached yet
  (`Verdicts.Undisturbed`), which every run leaves unless its switch was refused or killed. After such a
  run they hold for every packet decided before a jump to a candidate is reached
  (`Disturbed.OldOrNewWhereDecided`).
* An alias name classifies as a name, and is not also the host of an alias. `expand` looks at
  resolved names before it considers an alias; see the next section.
* A target written without `+` names no firewall chain, and no declared target spells
  a candidate chain name.
* The theorems about what a build makes take the answers about families as a function that names no
  family twice. `Compiling.CfwBuild` asks a prober and shows that its answers over the whole build are
  such a function, whether or not probing breaks down midway.
* Endpoint words hold no whitespace and no quote (needed only for reading rule lines back).

## Where a property fails

* Rollback restores a built-in chain exactly if and only if the old jump was its last rule; another
  program's rule behind it is otherwise overtaken, and a verdict can change
  (`ApplyProof.RollbackRestores`, `ApplyProof.RollbackCanChangeAVerdict`, and with a literal table
  `Samples.DecliningShutsOut`).
* A reload that finds candidates hooked, because a switch was refused or killed half-way, cleans them
  up while they are hooked: a packet only they decided then runs through to the policy
  (`Samples.FlushLetsThrough`).
* A rule line is read back as its words if and only if its last word survives the final
  trimming: one ending in whitespace other than space and tab does not
  (`Quoting.LineRoundTrip`, `RuleText.RuleRoundTrip`; inputs that fail are `Samples.CommentIsTrimmed`
  and `Samples.RuleIsTrimmed`).
* A rule naming an alias means what the alias says if and only if the name is taken for an alias
  (it is written like a name and was not resolved), or is taken for networks that are the alias's own
  without ports (`Shadowing.AliasKeepsMeaningIff`); `Shadowing.ShadowedAliasLosesItsPort` is an
  alias that fails.
* The local chains of two config files never share a name if and only if neither stem goes on from the
  other with a `+` and the beginning of a local name (`ChainNames.FilesKeepApartIff`); `1_a.sh`
  and `1_a+b.sh` do (`ChainNames.PlusInStemCollides`).
* The declaration stream gives back exactly what was declared if and only if every declaration is
  expressible: no NUL or newline in a field, lower-case chains and protocols, no empty required
  field, no protocol without a port (`Declarations.StreamRoundTrip`).
* `src/sets.rs:128` says a port spec defaults to tcp; the code writes the bare port. The model
  follows the code.

## Model

| member | source | states |
|---|---|---|
| `Hosts.Host.ForEachChain` | subcommands/fw_common.sh:116-134 | One pass acts, table by table in order, on the sorted chains the table had under the prefix when it was entered, not on chains the pass itself makes; it stops at the first refusal, and every state on the way is the specified one |
| `Text.SortedByCharacters` | subcommands/fw_common.sh:127 | Of two names listed the earlier one ends, or has the smaller character, where they part |
| `Text.ListedBefore` | subcommands/fw_common.sh:127 | A name that ends or has the smaller character where two part is listed before the other |
| `Kernel.DropIs` | subcommands/fw_cleanup:26-31 | A chain is dropped if and only if it is there, empty, not built in and nothing jumps to it, and then nothing else changes |
| `Kernel.RefusalsAre` | subcommands/fw_prepare_zones:42-46 | A chain is made only where there is none and its name fits, flushed only where there is one; rules need their chain and their target |
| `Kernel.FirstIsRemoved` | subcommands/fw_common.sh:169 | A delete takes out the first equal rule and leaves what is before and after it in order |
| `Commit.GetStep` | subcommands/fw_commit:29-36 | Reading the step when there is no file first writes the initial step; the text returned is the file's, and what is left of the commit is unchanged by the reading |
| `Commit.OneStep` | subcommands/fw_commit:49-65 | One turn renames a generation and only then moves the step on; an unknown step is refused with nothing changed |
| `Commit.FwCommit` | subcommands/fw_commit:42-69 | The step-file loop ends, and its states are those of the commit's specification: both renaming passes, the step written after each, the file removed with the next version written |
| `Commit.CommitResumes` | subcommands/fw_commit:29-69 | From any state of a commit in which the step file exists, including between two renames, running commit again goes through exactly the remaining states of the uninterrupted commit, with the same outcome |
| `Commit.StoppedCommitsEndAlike` | subcommands/fw_commit:43-69 | Stopped any number of times at any such points and started over, a commit ends in the same machine, chains, jumps, step and version, as if never stopped |
| `CommitProof.RenameIsIso` | subcommands/fw_commit:12-17 | Renaming a chain to a fresh name in a table with no dangling jump is an isomorphism of the jump graph |
| `CommitProof.CommitKeepsVerdicts` | subcommands/fw_commit:47-66 | At every state of a commit every packet has at every built-in chain, with every depth of jumps, the verdict it had before |
| `CommitProof.PassRefusal` | subcommands/fw_commit:12-17 | A renaming pass is refused if and only if some new name is taken or too long; renames of one pass never get in each other's way |
| `CommitProof.CommitResult` | subcommands/fw_commit:47-69 | A commit from the start goes through exactly when the live generation can be renamed to outgoing names; every table is then isomorphic to the old one under live-to-outgoing and candidate-to-live, the step file is gone and the version is the next one |
| `Resting.CommitNotRefused` | subcommands/fw_commit:16 | After a complete apply no rename of the commit is refused, neither for a taken name nor for length |
| `Resting.CommitCanStart` | fw_reload:79-83 | A reload can start from every state of a commit |
| `Delegates.AttachRun` | subcommands/fw_common.sh:153-173 | Attaching a list of delegates moves each one's jump to the end of its hook's chain, leaving other rows alone, and is refused exactly when a hook's built-in chain is missing |
| `Delegates.DetachRun` | subcommands/fw_common.sh:153-169 | Detaching is never refused, removes at most the first jump to each delegate from its hook's chain and nothing else, also at each state on the way |
| `Apply.ApplyConfig` | subcommands/fw_apply:12-18 | The method attaches the candidate delegates in all tables before it detaches any live one, state by state as the switch from live to candidate specifies |
| `Apply.RollbackConfig` | subcommands/fw_apply:20-25 | The method's states are those of the opposite switch |
| `ApplyProof.SwitchEnds` | subcommands/fw_apply:12-18 | A switch is refused exactly when a delegate's built-in chain is missing; otherwise every built-in chain ends as the old one without both jumps and with the new jump last, in all tables, and nothing else differs |
| `ApplyProof.SwitchStages` | subcommands/fw_apply:12-18 | Every state of a switch is a stage in which each row is the old one, has the new jump beside the old one, or has only the new one |
| `ApplyProof.MakeBeforeBreak` | subcommands/fw_apply:12-18 | At every stage a hook with both an old and a new delegate is attached to at least one of them, and neither jump is there twice |
| `ApplyProof.OldOrNewVerdict` | docs/design-rationale.md:10-14 | At every stage a packet meets the verdict from before or the one from after the switch; until the old jump is deleted, a packet a rule decided before is still decided the same |
| `ApplyProof.RollbackUndoesApply` | subcommands/fw_apply:20-25 | A rollback after a complete apply is never refused and ends with the old generation's jumps back, each last in its chain, everything else as it was |
| `ApplyProof.RollbackRestores` | subcommands/fw_apply:20-25 | Rollback restores a built-in chain exactly if and only if the old jump was its last rule; in any case all other rules keep their order |
| `ApplyProof.RollbackCanChangeAVerdict` | subcommands/fw_apply:20-25 | With a foreign drop rule behind the live jump, a packet accepted before apply is dropped after rollback |
| `Samples.DecliningShutsOut` | subcommands/fw_apply:20-25 | In one filter table a drop rule behind the live jump lets everything in before the reload and nothing after a declined one |
| `Samples.FlushLetsThrough` | subcommands/fw_cleanup:18-24 | In one table left by a refused switch, the first flush of the cleanup turns an accepted packet over to the policy |
| `CleanupProof.FwCleanup` | subcommands/fw_cleanup:41-46 | The six passes run in order with the specified states: flush and detach, remove, for candidates and then outgoing chains, then the sets of two versions |
| `CleanupProof.CleanupResult` | subcommands/fw_cleanup:18-46 | On a tidy machine cleanup is never refused, deletes exactly the candidate and outgoing chains in every table and exactly the sets of the previous and next version, and leaves it tidy |
| `CleanupSteps.CleanupStates` | subcommands/fw_cleanup:18-46 | Every state of a cleanup only has fewer stale chains, jumps and sets than the start; when no stale chain was reachable, no verdict at a built-in chain changes at any of them |
| `CleanupProof.CurrentSetsStay` | subcommands/fw_cleanup:45-46 | No set of the current version is destroyed |
| `Cleanup.LooksDelegateIff` | subcommands/fw_cleanup:20 | A chain is taken for a delegate if and only if it is CFW, something without underscores, _delegate_, and whatever follows |
| `Tidy.OneVersion` | subcommands/fw_common.sh:182-189 | A set name starts with the prefix of at most one version, since one decimal rendering is never confused with a longer one |
| `Zones.FillWanted` | subcommands/fw_prepare_zones:27-38 | The map gives each wanted hook the listed chains whose text after the last plus is that hook, in the listed order, with delegates left out and hooks without chains absent |
| `Zones.FwPrepareZones` | subcommands/fw_prepare_zones:15-52 | The method's states are those of the zone plan over all tables, for any order of the hooks; what the plan gives each delegate, and in which order, is in the rows below |
| `Zones.ZonesAreSorted` | subcommands/fw_prepare_zones:25-38 | The chains gathered for a hook are the set of chains that belong to it, each once, in the listing order, which `Text.SortedByCharacters` describes |
| `Zones.ZonesInOrder` | subcommands/fw_prepare_zones:25-48 | Of two zones of a hook the delegate jumps first to the one that ends or has the smaller character where their names part |
| `Zones.HooksAreBuiltins` | subcommands/fw_vars:20 | The hooks are the built-in chains spelled in lower case |
| `Samples.AllowBeforeDeny` | subcommands/fw_prepare_zones:25-48 | CFWTMP_10_allow+input is jumped to before CFWTMP_20_deny+input |
| `Zones.DelegatesPrepared` | subcommands/fw_prepare_zones:40-48 | A hook with chains gets a delegate holding exactly the jumps to them in sorted order; for a hook with none no delegate is made |
| `Zones.OrderIsImmaterial` | subcommands/fw_prepare_zones:40 | Which delegates exist and what they hold does not depend on the order the hooks are taken in |
| `Zones.ZonesResult` | subcommands/fw_prepare_zones:15-52 | Preparing is never refused and gives every table its delegates, changing nothing else |
| `Zones.PreparingAgain` | subcommands/fw_prepare_zones:40-48 | Preparing prepared tables changes nothing |
| `Building.Submit` | src/main.rs:214-239 | Loads are submitted in order up to the first refused, each state as specified |
| `Building.SetLoadsAre` | src/main.rs:221 | Creating a set that is there leaves it as it is, adding to one that is not is refused |
| `Building.BuildIsInert` | src/main.rs:214-239 | At every state of a submission, complete or broken off, only candidate chains and next-version sets differ and every packet's verdict is the one before the build |
| `Turnover.CommittedIsTidy` | subcommands/fw_commit:47-69 | What a commit makes of an applied table is tidy at the next version, with nothing stale reachable |
| `Turnover.RolledBackIsTidy` | subcommands/fw_apply:20-25 | What rollback makes of a table prepared for switching is tidy at the current version, with nothing stale reachable |
| `Reload.FwApply` | subcommands/fw_apply:41-44 | Apply, then on yes commit and clean up, on no roll back and fail; states as specified |
| `Reload.FwReload` | fw_reload:79-107 | The whole reload: resume a commit if there is a step file, clean up, build, prepare zones, apply; states and outcome as specified |
| `ReloadProof.ReloadStates` | fw_reload:79-107 | From a state of a reload the next one can start if and only if a step file is there or every live delegate is hooked; and it can from every state but those of the one switch of that reload after the candidates are all hooked, up to the first step of the commit or the end of the rollback |
| `ReloadResults.ReloadEnds` | fw_reload:79-107 | A reload always ends in a state the next can start from, with no commit pending; it succeeds exactly when it was built, switched and confirmed; it ends quiet unless the switch itself was refused |
| `ReloadResults.SwitchedEnds` | subcommands/fw_apply:41-44 | Once switched, success is the operator's answer; a yes leaves nothing stale and the next version recorded, a no leaves the prepared machine rolled back at the same version |
| `ReloadResults.NotBuiltEnds` | fw_reload:88-90 | A refused or missing build ends the reload right there, failed, quiet, at the same version |
| `ReloadResults.NotSwitchedEnds` | subcommands/fw_apply:12-18 | A switch refused for a missing built-in chain fails the reload at the same version in a state the next reload can start from |
| `Verdicts.OldOrNew` | docs/design-rationale.md:10-14 | When no candidate or outgoing chain can be reached at the start: at every state of a reload every packet meets at every built-in chain the verdict before the reload or that of the new ruleset, or, after a refused confirmation, that of the restored one |
| `Disturbed.OldOrNewWhereDecided` | docs/design-rationale.md:10-14 | From any state a reload can start in, candidates hooked or not: a packet decided before a jump to a stale chain is reached meets at every state the old verdict, the new one, or after a no the restored one |
| `Disturbed.OldOrNewSinceCleaned` | fw_reload:85-107 | From any state a reload can start in: after the cleanup every packet meets the verdict the cleanup left, the new one, or after a no the restored one |
| `Verdicts.FailedBuildIsInert` | src/main.rs:214-239 | When no candidate or outgoing chain can be reached at the start: at every state of a reload whose build fails no verdict differs from the one before |
| `Verdicts.ConfirmedIsNew` | subcommands/fw_apply:41-44 | After a confirmed reload every packet meets the verdict of the candidate ruleset as it was switched to: commit and cleanup change none |
| `BetweenRuns.ReloadsCanStart` | fw_reload:79-107 | After any number of reloads with any builds and answers, each run to its end or killed at any state with a commit begun or all live delegates hooked, the next can start |
| `BetweenRuns.NextReloadSettles` | fw_reload:79-107 | After such a history the next reload to reach its end leaves a quiet machine, unless its switch is refused |
| `BetweenRuns.NothingStaleIsReached` | fw_reload:79-107 | Between runs no candidate or outgoing chain can be reached from a chain that is not generated, by any number of jumps |
| `BetweenRuns.ReachedSetsAreCurrent` | fw_reload:79-107 | Between runs every versioned set matched by a reachable rule exists and is of the recorded version |
| `BetweenRuns.OnlyLiveDelegatesAreHooked` | subcommands/fw_common.sh:153-173 | Between runs a jump from outside into the firewall stands in a built-in chain, is the plain jump to the existing live delegate of that hook, and occurs once |
| `OtherPrograms.ReloadKeepsOthers` | fw_reload:79-107 | At every state of a reload, whatever it started from and however it went, the chains of other programs and their rules in every chain are there in their order, and so are their sets with their entries |
| `Declarations.Stream.Declare` | subcommands/fw_declare.sh:13-18 | The emitter appends exactly one record, fields in order and separated by NUL |
| `Declarations.StreamRoundTrip` | src/decl.rs:67-153 | Parsing what the emitter wrote gives back the same sequence of declarations if and only if every one of them is expressible |
| `Declarations.ParseGivesExpressible` | src/decl.rs:88-139 | Every declaration a parse returns is expressible, whatever the input |
| `Declarations.FirstBadRecordReported` | src/decl.rs:143-153 | Parsing fails if and only if some record does, and reports the first such record by number with its own problem |
| `Declarations.RecordTakenIff` | src/decl.rs:67-140 | A record is taken if and only if it has a line number below two to the thirty-second and, for its kind, every field needed, and an alias name without dot and colon |
| `Declarations.ProblemIsSo` | src/decl.rs:70-138 | The problem reported of a record is one it has, and names the field that is empty |
| `Declarations.PortAndProtocol` | src/decl.rs:105-111 | Of the words after the host of an alias the first that is not empty is the port and the second, lowered, the protocol |
| `Resolution.NamesToResolve` | src/resolve.rs:50-94 | The loop collects the uses of every name needing DNS, in declaration order per name; a word is collected if and only if it is the host of an alias, or an endpoint no alias declares, and by its characters neither any, in whatever case, nor an address or network |
| `Resolution.Classified` | src/resolve.rs:25-37 | A host is any if it is those three letters in some case; a literal if it has a colon, or begins with a digit and has no letter; a name otherwise |
| `Resolution.NetworkIsLiteral` | src/resolve.rs:25-37 | A printed address, a slash and a number make a literal, which is never looked up |
| `Resolution.UsageSays` | src/resolve.rs:64-89 | Each use says whether it is the host of an alias and which, or the source or destination of a rule, and where |
| `Resolution.CollectedAreNeeded` | src/resolve.rs:61-91 | A name is collected if and only if an alias has it as host or a rule has it as an endpoint that no alias declares, and then with at least one use |
| `Resolution.ResolveAll` | src/resolve.rs:126-187 | Succeeds if and only if there is no complaint, with the answers of exactly the collected names; fails with every complaint, one per failing name, use and place, sorted by file and line with no repetition |
| `Resolution.TroubleIs` | src/resolve.rs:133-172 | A name with an underscore is always in trouble and never looked up; any other exactly when its lookup gives no address |
| `Resolution.ReportOrder` | src/resolve.rs:144-147 | Lines of the report are in the order of their files' characters, and of line numbers within a file |
| `Resolution.Report` | src/resolve.rs:179-187 | The report holds exactly the recorded entries in strictly increasing order of place and text |
| `Resolution.ResolutionIsTotal` | src/resolve.rs:126-177 | After success the resolved names are exactly the collected ones, each with an address |
| `Resolution.EndpointsHaveMeaning` | src/resolve.rs:46-91 | After success an endpoint that classifies as a name is an alias or has an address |
| `Resolution.AddressIsLiteral` | src/resolve.rs:25-37 | An address of either family, as written, classifies as a literal, so expanded endpoints are never resolved again |
| `AliasSets.Build` | src/sets.rs:199-296 | Succeeds if and only if all alias names are usable, every alias for any has a port and no half of an alias is asked to be of two types; then each half exists if and only if a declaration asks for an entry of its family, told by the colons, and holds exactly the entries asked for: the host or its addresses, and the port with the protocol before a colon when that has three letters; otherwise reports all unusable names, or the first declaration that clashes |
| `AliasSets.SetsAreDeclared` | src/sets.rs:228-295 | What a half holds, in terms of the characters of the declarations |
| `AliasSets.ConsistentIff` | src/sets.rs:106-125 | Building meets no clash if and only if every any has a port and no half is asked to be of two types |
| `AliasSets.UsableIff` | src/sets.rs:144-184 | A name is usable if and only if with prefix and suffix it is within 31 characters and does not end in _v6 |
| `AliasSets.RejectedSays` | src/sets.rs:154-182 | What is reported of an unusable name, with the number of characters too many |
| `AliasSets.MixedSays` | src/sets.rs:121-123 | A clash names the type the set has and the one asked for |
| `AliasSets.AddedIs` | src/sets.rs:108-125 | Adding one item to sets built so far fails if and only if the items with it are inconsistent, and otherwise gives the sets of the longer list |
| `AliasSets.SetsHoldTheirAliases` | src/sets.rs:228-295 | The half of an alias for a family exists if and only if an entry was declared for it, and then holds exactly those entries in declaration order, with the one type they all have |
| `AliasSets.HalvesApart` | src/sets.rs:90-95 | Two halves of usable aliases share a set name only if alias and family are the same |
| `AliasSets.NothingRejected` | src/sets.rs:204-226 | The list of rejected names is empty if and only if every alias name is usable |
| `AliasSets.RenderedNamesFit` | src/sets.rs:144-165 | Every set name, with its prefix, fits the limit of ipset |
| `AliasSets.Render` | src/sets.rs:299-315 | The stream creates each set, in order of names, and adds its entries in their order |
| `SetText.SetStreamIsRead` | src/sets.rs:63-69 | A reader that splits at spaces recovers from the text of every line rendered the set's name, its type, its family, which is IPv6 exactly for names in _v6, and each entry's host, protocol and port |
| `Probing.Prober.Prepare` | src/probe.rs:44-74 | After preparing, the scratch chain is there and empty in both families or the prober is degraded; a second call changes nothing |
| `Probing.Prober.FamiliesFor` | src/probe.rs:77-95 | Not degraded, the answer is the list of the families that take the tail in that table, cached or not; no family is offered a tail twice in a table (an invariant of the prober); degraded, both families are given, nobody is asked and nothing is cached; the prober never degrades where a scratch chain can be had |
| `Probing.TakersAre` | src/probe.rs:88-91 | The answer has exactly the families that take the tail in the table, IPv4 first |
| `Probing.Prober.Accepts` | src/probe.rs:97-118 | One probe says whether the family takes the tail, leaves every scratch chain as it was, and counts as one question |
| `Probing.Prober.Cleanup` | src/probe.rs:121-138 | Cleanup removes the scratch chain of both families from every prepared table and touches no other |
| `ChainNames.NamesAreInjective` | src/rules.rs:18-41 | Of two files neither of whose stems shadows the other, two declarations get the same chain name if and only if they name the same chain, and for local chains in files of one stem |
| `ChainNames.FilesKeepApartIff` | src/rules.rs:18-41 | No local chain of one file shares its name with one of another if and only if neither stem goes on from the other with a plus and what could begin a local chain's name |
| `ChainNames.PlusInStemCollides` | src/rules.rs:18-41 | Files 1_a.sh and 1_a+b.sh with chains b+c and c make one chain |
| `ChainNames.NotADelegate` | src/rules.rs:18-41 | No generated chain is named like a delegate |
| `ChainNames.StemIff` | src/rules.rs:26-38 | A file qualifies chains if and only if its name is digits, an underscore, something, and .sh |
| `ChainNames.ChainNameIs` | src/rules.rs:18-41 | Then a chain is named for the file without .sh, a plus and itself; one written with a plus keeps its name |
| `ChainNames.LengthIff` | src/rules.rs:56-69 | A name is let through if and only if with the prefix it is below 29 characters; otherwise the report says by how many it is over |
| `Submitting.BuiltNamesFit` | src/rules.rs:56-69 | Every chain the compiler submits is short enough under the candidate prefix and stays so under the live and outgoing ones, so no later commit is refused for length |
| `Quoting.LineRoundTrip` | src/rules.rs:82-89 | The reader's words of the quoted, joined and trimmed arguments are the arguments if and only if the last one survives the trimming |
| `Quoting.WhitespaceCodes` | src/rules.rs:224 | By code points, what is trimmed off a line |
| `RuleText.RuleRoundTrip` | src/rules.rs:206-224 | A whole rule line is read back as its words under the same condition |
| `RuleReader.RuleIsRead` | src/rules.rs:91-121 | A reader that knows -s, -d, -m set --match-set, src, dst and commas recovers from a rule's line its tests in order with network, set name and directions, and then its tail |
| `Samples.CommentIsTrimmed` | src/rules.rs:206-224 | Two arguments, the last ending in a no-break space, are not read back |
| `Samples.RuleIsTrimmed` | src/rules.rs:206-224 | The same for the line of a whole rule |
| `RuleText.BuiltRulesArePlain` | src/rules.rs:91-121 | The endpoint words of every rule the compiler builds from bare endpoints need no quoting |
| `RuleBuilding.ProbeTail` | src/rules.rs:126-140 | The loop replaces exactly the words beginning with a plus right after a -j, by ACCEPT |
| `RuleBuilding.RewriteTargets` | src/rules.rs:143-157 | The loop prefixes exactly the words beginning with a plus right after a -j |
| `RuleBuilding.Build` | src/rules.rs:163-231 | Succeeds if and only if every rule's chain can be named within the limit; then gives the rules of all declarations grouped by family, table and chain in declaration order, an address with a colon only ever under IPv6 and one without only under IPv4; otherwise the error of the first that cannot; the prober's answers at the end are those used throughout |
| `RuleBuilding.Ask` | src/rules.rs:188 | A further question to the prober contradicts no answer already used, so the rules of the declarations before it are those the answers at the end give |
| `RuleBuilding.CrossAre` | src/rules.rs:191-227 | The lines of a rule are those of every pair of a source and a destination variant, no more and no fewer |
| `Restoring.Render` | src/rules.rs:257-274 | The stream has one block per table in order, all chain lines of a table before its rules |
| `Restoring.StreamRestores` | src/rules.rs:257-274 | A restore that creates or flushes at each chain line reads the stream to the end without complaint, gives every chain of the ruleset exactly its rules in order, and leaves all other chains and tables as they were |
| `Meaning.AliasVariantHit` | src/rules.rs:110-119 | A packet matches the set test written for an alias, with one direction per dimension, if and only if it matches some declaration of the alias in that family; a port-only alias matches nothing in IPv6 |
| `Netfilter.OneEntryHit` | src/rules.rs:113-119 | A set match looks at the end of the packet each direction names, one direction for networks or ports and two for both, and never matches with another number |
| `Meaning.NameVariantsHit` | src/rules.rs:235-254 | A packet matches one of the expansions of a resolved name if and only if it matches one of its addresses |
| `Meaning.ExpansionHits` | src/rules.rs:191-227 | A packet matches one of the rules a declaration is compiled to if and only if it matches the declaration read directly |
| `Meaning.ReplacedOptions` | src/rules.rs:143-157 | Rewriting targets leaves the match options of a tail as they are |
| `Meaning.ReplacedTarget` | src/rules.rs:143-157 | Rewriting targets changes the target of a tail exactly when it is a plus-word, and then to the replacement |
| `Meaning.TailReads` | src/rules.rs:123-125 | A tail with one -j is read as the word after it for target and everything else for options |
| `Shadowing.AliasKeepsMeaningIff` | src/rules.rs:235-254 | For every packet the rules for an alias match as the alias says, if and only if its name is written like a name and was not resolved, or the networks it is taken for are exactly the alias's own entries, none with a port |
| `Shadowing.ShadowedAliasLosesItsPort` | src/rules.rs:235-254 | An alias named like a host that was resolved is expanded as the host, so a packet on another port matches |
| `Compilation.ChainsHoldTheirDeclarations` | src/rules.rs:171-230 | A chain holds exactly the lines of its own declarations, from all files, in declaration order |
| `Compilation.ChainIsRead` | src/rules.rs:163-231 | Walking a compiled chain, through all the chains it jumps to, decides every packet as its declarations read in order do |
| `Compiling.CfwBuild` | src/main.rs:135-239 | Something is submitted if and only if the input parses, every name resolves, the alias names and types are sound and every chain can be named; it is then the rendering of sets, IPv4 and IPv6 rules under one answer per table and tail, the direct answer wherever probing works; no tail is offered to a family twice and no scratch chain is left over |
| `Submitting.SubmissionsAreCandidates` | src/main.rs:214-239 | What the compiler submits touches candidate chains and next-version sets only, with jumps within the candidates |
| `Streams.SubmissionReadsAsLoads` | src/main.rs:214-239 | Read line by line, with a chain emptied by its line and each table handed over at its COMMIT, the three streams printed are exactly the loads the protocol submits, for every table and every set in order |
| `Loading.SubmissionTaken` | src/main.rs:214-239 | On a fresh machine a submission that is accepted leaves every set with exactly its entries and every table with exactly the compiled chains added |
| `Acceptance.BuiltSetsAreThere` | src/rules.rs:110-119 | No rule built names a set that was not built, so a set test is never a reason to refuse the rules |
| `Acceptance.SubmissionTakenIff` | src/main.rs:214-239 | On a clean machine the kernel takes a submission if and only if it has every table built for and every chain jumped to exists there or comes with it; names, lengths and sets are never the reason to refuse |
| `EndToEnd.HookIsRead` | subcommands/fw_prepare_zones:15-52 | After the switch a hook's built-in chain decides every packet by the foreign rules first and then by the declarations of its zones, in sorted order |
| `Enforcement.BuiltAreDeclared` | subcommands/fw_prepare_zones:25-38 | The chains a table offers its hooks are exactly those the ruleset has for it |
| `Declared.DeclarationsAreEnforced` | fw_reload:79-107 | From any state a reload can start from, a confirmed reload leaves a kernel in which the built-in chain of every hook of every table gives every packet, at every depth, what the rules other programs had in that chain at the start and then the sorted chains the ruleset has for the hook, read from the declarations, decide; the ruleset is compiled at the version recorded at the start, or one later when a commit had to be finished first |
| `Declared.ZonesAreDeclared` | subcommands/fw_prepare_zones:25-38 | The chains a hook of a table is given are the sorted chains of the ruleset for that family and table whose text after the last plus, in lower case, is the hook |
| `Declared.UnhookedIsForeign` | subcommands/fw_common.sh:164-172 | In a tidy table with nothing stale reachable a built-in chain without its live delegate holds exactly the rules of other programs |
| `Success.TableHooksIff` | subcommands/fw_common.sh:164-172 | All delegates prepared in a table have their built-in chain if and only if every compiled chain named for a hook does |
| `Success.ReloadSucceedsIff` | fw_reload:79-107 | From any state a reload can start from: the build is refused if and only if the declarations do not compile or ask for a table or chain that is not there; the switch is refused if and only if, though built, a built-in chain of a hook used is missing; the reload succeeds if and only if neither is the case and the operator confirms |
| `Success.FirstReloadCanStart` | fw_reload:79-107 | A host with none of the firewall's chains, and no rule about them or its sets, can have its first reload with all the verdict theorems |
| `Example.FirstReloadSucceeds` | fw_reload:79-107 | For a configuration of one rule, on any untouched host with a filter table and its built-in chains, all assumptions of the theorems hold together and the confirmed reload succeeds |
| `Example.SomeReloadSucceeds` | fw_reload:79-107 | There is a machine, a reload and a source of one rule for which all of this holds |

## Left out

Stated weaker than the source, or under a condition of the model's own:

- Commit.CommitResumes: removing the step file and writing the version (subcommands/fw_commit:68-69) are one step of the model, and each write of the step file is one step; a crash between or inside them is not modelled, and the code does not recover from one.
- ReloadProof.ReloadStates: what a reload started with a live delegate unhooked does is not described; the code has no recovery from a crash there. The verdicts at those states are covered by `Verdicts.OldOrNew`.
- Verdicts.OldOrNew: nothing else changes the tables during a reload; for a start with candidates hooked see `Disturbed.OldOrNewWhereDecided`.
- Compilation.ChainIsRead: match options are an opaque predicate on packets, so limits, counters and connection state are outside. Verdicts are taken to a depth of jumps, equal on both sides for every depth; the kernel's loop check is not modelled, and `Netfilter.RankedWalksEnd` shows that ranked jump graphs never run out of depth.
- Meaning.ExpansionHits: rules and set entries are kept as data (tests, options and a target; host and port spec) and spelled only where text matters, in `RuleText.LineText`, `SetText.SetLineText` and in the names of chains and sets.
- Restoring.StreamRestores: the restore stream is a sequence of table, chain, rule and commit lines; the spelling of the `*table`, `:CHAIN` and `-A` prefixes is not read back from characters (`Streams` reads lines). The text of the rules is, in `RuleReader.RuleIsRead`, and that of the set stream in `SetText.SetStreamIsRead`.
- RuleBuilding.Build: the nested maps by family, table and chain are one map keyed by the three.
- Probing.Prober.Accepts: deletes of what was appended succeed. The scratch chain lives in a model of its own and not in the tables of `Machines`; nothing refers to it.
- Resolution.ResolveAll: lookup is a function from a name to addresses or an error; concurrency and the resolver are not part of this model, nor is a failure to read the resolver's configuration.
- Zones.FwPrepareZones: the tables are the ones given; `-N` on an existing delegate is ignored as in the script.
- Submitting.BuiltNamesFit: lengths are counted in characters, which for ASCII names are bytes. Case mapping is ASCII too.

Not part of this model:

- The build by shell scripts alone, used when the helper is missing, and `_fw_rule` behind it.
- Finding the set version when the version file is missing (subcommands/fw_common.sh:30-46); the machine always records one.
- The prompt and its timeout (the answer is a boolean), logging, traps, conntrackd, saved rulesets, post-run scripts, packaging, boot.
- Running real programs, pipes, exit statuses and reading their complaints; a command is refused or takes effect as the kernel model says.
- Parsing of addresses and networks, and the wording of most messages; a problem is a value of a datatype that holds what the message mentions.
- Reading the configuration files: the declarations begin as the arguments of `_fw_declare`.
