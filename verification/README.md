# Verification of the Epilykos update machinery

A Dafny model of the parts of EpilykosOS that must stay right through power cuts: the
guarded two-copy environment of the loader, the OS update life cycle, boot supervision,
application updates, downloads, trust, and the formats that several languages share.
`dafny verify dfyconfig.toml` checks all of it.

## The system

**The environment guard** (`bytes`, `decimals`, `base64`, `crc`, `env_*`). A card holds two
16 KiB records: CRC-32, a flag byte, `name=value` entries. The strict parser is proved
against a declarative decoding that is shown unique; the selector, the builder, the two-pass
commit, the snapshot adapter and the loader's save are the C functions, loop by loop, over
byte buffers. `env_laws` writes the definitions those proofs rest on out in full, with the
literal names, offsets and limits. A commit is crash-atomic under one hypothesis: a record cut while being written
fails its checksum. Whether the device may also drop or misdirect writes is a parameter of the
card (`EnvCommit.Device.honest`, `reliable`); acknowledged commits are true either way.

**Trust** (`fw_env`, `trust`). The guarded `fw_setenv` edits an image of the selected record and
flushes it through the snapshot adapter; root-signed policies are admitted by such a script.
Signatures and the contents of a policy are opaque functions of its bytes.

**The OS update life cycle** (`steps`, `lifecycle*`). One class holds the environment, the
journal, the guard file and the booted slot. Every environment batch, journal save, guard
write and RAUC call is one step that may be cut or fail before or after its effect; RAUC may
also do nothing. A ghost history (launches, healthy and good trials, floor changes) lets the
invariant speak about the past. A box with `steady` set has no failing step; the contracts say
what must happen there besides what may happen anywhere. `LifecycleWorker.Life` runs any
sequence of actions.

**Boot supervision** (`supervisor`), **downloads** (`download`), **application updates**
(`app_update`), and **the devicetree checker** (`devicetree`) are modelled the same way: the
source's class or loop, with nondeterministic outcomes for what is outside, and statements
over whole runs. The supervisor keeps per tick what was asked, answered and started, so that a
confirmed boot can be traced to a healthy answer.

## Where a promise has an exact limit

- Maintenance exclusion fails exactly beside the trial of a job that was carelessly ended while
  the environment named it (`LifecycleClaims.ExclusionFailsExactly`). Three events end a job that
  way (`LifecycleWorker.EndsCarelessly`, proved of every action in `LifecycleWorker.Act`): its
  dismissal before the environment forgot it (`LifecycleClaims.DismissWhileNamedBreaksExclusion`);
  a restarted worker that finds no maintenance lease although the target can already boot
  (`LifecycleClaims.LeaselessEndBreaksExclusion`) or is running, be it on its last attempt
  (`LifecycleClaims.LeaselessTrialBreaksExclusion`); and the loss of the journal file alone under
  an idle guard (`LifecycleWorker.JournalLoss`).
- hostd goes on serving after a reconciliation that raised. Restart, discard and every other
  action keep the invariant there; activation does exactly if the job was never launched
  (`LifecycleClaims.ActivationIsSafeExactly`), and `UnreconciledActivationBreaksTarget` shows
  what it breaks otherwise.
- Confirmation resumes within a boot; with the floor raised and an attempt spent by another
  boot it does not (`LifecycleClaims.ConfirmsExactly`).
- An application update whose handler runs after `current.json` was written leaves the old
  image running under the new release's name (`AppUpdate.PuttingBackAgrees`); a stop between
  `current.json` and `floor` re-admits older releases (`AppUpdate.GuardedUnlessBetween`,
  `OlderAdmittedAfterStop`); a sequence of ten or more digits is promoted without ever being
  started (`AppUpdate.CandidateIsStarted`); an interrupted promotion is reported as kept back
  although the candidate stays (`AppUpdate.RecoveryGoesBackTo`); bundling that stops after
  `current.json` is never completed by a retry (`AppUpdate.RetriedPromotion`), which disturbs
  the running slot only while another release at least as new runs there
  (`AppUpdate.BundlingStopAgrees`). A fallback to an older baseline agrees exactly as
  `AppUpdate.AgreeingOnOneSlot` says; agreement on every slot at once means that `active.env`
  names `current.json` or neither exists (`AppUpdate.AgreeingOnEverySlot`).
- A kill between saving a new validator and truncating the part can mix two bodies into a
  package of the right size, until an answer restarts the download
  (`Download.BrokenExactly`, `KillCanMixBodies`).
- The loader reads its environment even when one copy cannot be read. If that copy was the newer
  one of a critical commit cut after its first write, the loader is ready with the older
  generation and its save is refused as stale (`EnvSnapshot.ImportedGeneration`,
  `UnreadCopyIsStale`; the second under the premise that a zero record fails its checksum). A
  session is fresh exactly as `EnvSnapshot.Loader.Import` says, and after every successful save.
- The Python policy ordering compares policy bytes only; the guard also fixes the signature
  of an epoch (`Trust.OnlySignaturesConflict`).

## Model

| member | source | states |
|---|---|---|
| Decimals.Decimal | os/board/epilykos/raspberrypi3/platform-env/epk_env.c:108-121 | accepts exactly the canonical decimals up to 2^64-1 (wrap-around of the unsigned digit test included) and returns the number whose canonical digits are the text |
| Decimals.ValueOfDigits | os/board/epilykos/raspberrypi3/platform-env/epk_env.c:267-278 | every number has canonical digits that denote it; up to 2^64-1 they are accepted back |
| Decimals.DigitsOfValue | os/board/epilykos/raspberrypi3/platform-env/epk_env.c:108-121 | a canonical text is the digits of its value, so reading and writing are inverse both ways |
| Decimals.ReverseDigits | os/board/epilykos/raspberrypi3/platform-env/epk_env.c:267-274 | the do-while leaves exactly the canonical digits, least significant first |
| Decimals.ToDecimal | os/board/epilykos/raspberrypi3/platform-env/epk_env.c:267-278 | fills at most 21 bytes with exactly the canonical digits and their NUL |
| Decimals.PositiveSequence | os/board/epilykos/raspberrypi3/platform-env/epk_halt.c:37-51 | the string comparison against 18446744073709551615 accepts exactly the canonical positive 64-bit numbers |
| Decimals.GreaterStringIsGreaterNumber | os/board/epilykos/raspberrypi3/platform-env/epk_halt.c:44-46 | on digit strings of one length, strcmp order is numeric order, both ways |
| Decimals.MaximumIsU64Max | os/board/epilykos/raspberrypi3/platform-env/epk_halt.c:45 | the literal bound denotes 2^64-1 |
| Decimals.LengthBounds | os/board/epilykos/raspberrypi3/platform-env/epk_halt.c:44-46 | 21 or more digits never fit 64 bits, 19 or fewer always do |
| Decimals.ReadersAgree | tools/bootstrap_export.py:32-42 | the exporter accepts the same positive numbers as the loader and the guard, with or without a trailing newline, and reads the same value |
| Base64.DecodeIsInverse | os/board/epilykos/raspberrypi3/platform-env/epk_env.c:133-148 | every text the size test accepts is the RFC 4648 encoding of that many bytes |
| Base64.EncodeIsCanonical | os/board/epilykos/raspberrypi3/platform-env/epk_env.c:133-148 | every encoding is accepted, printable, and measured exactly |
| Base64.EncodeIsInjective | os/board/epilykos/raspberrypi3/rootfs-overlay/usr/lib/epilykos/python/epilykos_os_trust.py:395-396 | decoding an encoding gives the bytes back |
| Base64.SizeIsExact | os/board/epilykos/raspberrypi3/platform-env/epk_env.c:133-148 | the size is n > 0 exactly for the canonical base64 of n bytes (sections 3.5 and 4 of RFC 4648) |
| Base64.Size | os/board/epilykos/raspberrypi3/platform-env/epk_env.c:133-148 | the loop computes that size without decoding; a missing value has size 0 |
| Crc.NativeCrc | os/board/epilykos/raspberrypi3/platform-env/epk_env.c:26-37 | the nested loops compute the byte-by-byte CRC register, complemented |
| Crc.CheckValues | os/board/epilykos/raspberrypi3/platform-env/epk_env.c:26-37 | CRC-32 without naming its shifts: nothing has checksum 0, the byte 0xFF has 0xFF000000 and the byte 0x7F has 0x12B88320 |
| EnvFormat.DecodingIsUnique | os/board/epilykos/raspberrypi3/platform-env/epk_env.c:150-176 | two lists of entries that render to the start of one payload are equal: a payload has at most one decoding |
| EnvFormat.NextEntry | os/board/epilykos/raspberrypi3/platform-env/epk_env.c:154-176 | a decoding that extends the entries read so far has its next entry, or its end, at the current position |
| EnvFormat.LookupMember | os/board/epilykos/raspberrypi3/platform-env/epk_env.c:66-73 | in a record without duplicates, get finds exactly the entries that are there |
| EnvParse.ParseEntry | os/board/epilykos/raspberrypi3/platform-env/epk_env.c:154-169 | one turn of the loop: the entry that renders here, or none can |
| EnvParse.DuplicateIsInvalid | os/board/epilykos/raspberrypi3/platform-env/epk_env.c:170-173 | a repeated name rules out every decoding of the payload |
| EnvParse.Decoded | os/board/epilykos/raspberrypi3/platform-env/epk_env.c:178-182 | at the closing NUL the entries read are the one decoding, and the status depends only on the headroom and the scalars |
| EnvParse.Parse | os/board/epilykos/raspberrypi3/platform-env/epk_env.c:150-197 | for every 16379 byte payload: the status and the view of the declarative decoding (order of refusals included), with every read in bounds |
| EnvParse.ReadScalars | os/board/epilykos/raspberrypi3/platform-env/epk_env.c:181-196 | capacity before scalars; schema, three decimals and both base64 sizes exactly as required |
| EnvParse.GetDecimal | os/board/epilykos/raspberrypi3/platform-env/epk_env.c:185-187 | a missing or non-canonical number is refused; the value is exact |
| EnvSelect.SealedIsUnique | os/board/epilykos/raspberrypi3/platform-env/epk_env.c:39-52 | a flag byte and a payload determine the checksummed record |
| EnvSelect.CheckSameCritical | os/board/epilykos/raspberrypi3/platform-env/epk_env.c:90-106 | true exactly when every `epk_` name, present in either copy or not, has the same value in both |
| EnvSelect.CheckNotOlder | os/board/epilykos/raspberrypi3/platform-env/epk_env.c:199-208 | true exactly when the newer state does not go back, which `EnvLaws.ComparisonsSay` spells out |
| EnvSelect.Inspect | os/board/epilykos/raspberrypi3/platform-env/epk_env.c:228-232 | one copy is damaged, undecodable with its status, or sound with its view |
| EnvSelect.Select | os/board/epilykos/raspberrypi3/platform-env/epk_env.c:219-251 | the status and the reported selection of the two-copy decision; `EnvLaws.SelectsNewer`, `SelectsAhead` and `SelectsBesideDamage` say case by case what that decision is |
| EnvLaws.RecordIsLittleEndian | os/board/epilykos/raspberrypi3/platform-env/epk_env.c:39-52 | a record of 16384 bytes is valid exactly when its first four, least significant first, are the checksum of all from its sixth on |
| EnvLaws.BlockIsWritten | os/board/epilykos/raspberrypi3/platform-env/epk_env.c:253-265 | the payload of no entries is one NUL; one more entry puts its name, an equals sign, its value and a NUL before that |
| EnvLaws.AcceptedInFull | os/board/epilykos/raspberrypi3/platform-env/epk_env.c:150-197 | what the parser accepts, written out: the entries open the payload, leave 2048 bytes free, number 1 to 256, have nonempty names and values of the allowed bytes, differ in name, and carry the scalars |
| EnvLaws.ScalarsAreValues | os/board/epilykos/raspberrypi3/platform-env/epk_env.c:181-196 | the scalars, written out: schema 1, three numbers below 2^64 in canonical digits, canonical base64 of a policy of 1 to 6144 bytes and of a signature of 64 |
| EnvLaws.ViewIsRead | os/board/epilykos/raspberrypi3/platform-env/epk_env.c:185-187 | the generation, floor and epoch of a view are the numbers its entries carry under the names `epk_state_generation`, `epk_os_floor`, `epk_trust_epoch` |
| EnvLaws.ComparisonsSay | os/board/epilykos/raspberrypi3/platform-env/epk_env.c:90-106 | both comparisons, written out: a newer state goes back exactly when its floor or its epoch is lower, or the epoch is equal and the policy or the signature differs; the critical values agree exactly when every name that begins with `epk_` has the same value or none in both |
| EnvLaws.SelectsNewer | os/board/epilykos/raspberrypi3/platform-env/epk_env.c:237-240 | of two sound copies of different generations the newer one is selected, or there is a conflict, exactly if the newer one goes back |
| EnvLaws.SelectsAhead | os/board/epilykos/raspberrypi3/platform-env/epk_env.c:241-249 | of two sound copies of one generation the one with the flag ahead (0 follows 255) is selected, or there is a conflict, exactly if some critical value differs |
| EnvLaws.SelectsBesideDamage | os/board/epilykos/raspberrypi3/platform-env/epk_env.c:228-236 | an undecodable copy refuses the card with its status; of a sound and a damaged copy the sound one is selected; two damaged ones are invalid |
| EnvBuild.Append | os/board/epilykos/raspberrypi3/platform-env/epk_env.c:253-265 | appends exactly one rendered entry inside the buffer, or reports capacity and changes nothing |
| EnvBuild.CheckNames | os/board/epilykos/raspberrypi3/platform-env/epk_env.c:304-311 | accepts exactly the lists of distinct, nonempty names that leave the generation alone |
| EnvBuild.CheckChangedCritical | os/board/epilykos/raspberrypi3/platform-env/epk_env.c:280-293 | true exactly when some critical update differs from the record |
| EnvBuild.AppendKept | os/board/epilykos/raspberrypi3/platform-env/epk_env.c:317-329 | the buffer is the rendering of the old entries with updates, deletions and the generation applied |
| EnvBuild.AppendAdded | os/board/epilykos/raspberrypi3/platform-env/epk_env.c:330-333 | then of the updates that name no old entry, in order |
| EnvBuild.Assemble | os/board/epilykos/raspberrypi3/platform-env/epk_env.c:316-333 | capacity exactly when the rendering does not fit; otherwise it fills the zeroed buffer |
| EnvBuild.NextMember | os/board/epilykos/raspberrypi3/platform-env/epk_env.c:317-333 | name by name, what the built list contains |
| EnvBuild.DecodingIsNormal | os/board/epilykos/raspberrypi3/platform-env/epk_env.c:334 | a built payload that parses decodes to its entries split at their first `=`, whatever bytes the update names contain |
| EnvBuild.BuildThenParse | os/board/epilykos/raspberrypi3/platform-env/epk_env.c:295-340 | for names without `=`, building then parsing is the identity: every name ends with its update, its deletion or its old value, the generation as computed, and 2048 bytes stay free |
| EnvBuild.ResultGeneration | os/board/epilykos/raspberrypi3/platform-env/epk_env.c:312-316 | the generation in the result is the old one, plus one exactly when a critical entry changed, and never exceeds 2^64-1 |
| EnvBuild.UnchangedKeepsCritical | os/board/epilykos/raspberrypi3/platform-env/epk_env.c:312-316 | a build that keeps the generation keeps every critical value, even for names that contain `=` |
| EnvBuild.BuildAdvances | os/board/epilykos/raspberrypi3/platform-env/epk_env.c:334-337 | a successful build, field by field: floor, epoch and generation are at least those of its source, one epoch keeps its policy and signature, the generation grows by one exactly when a critical entry changes |
| EnvLaws.BuildConflicts | os/board/epilykos/raspberrypi3/platform-env/epk_env.c:334-337 | among the lists whose payload parses, a build is refused as a conflict exactly if what it builds goes back, field by field as `ComparisonsSay` spells out |
| EnvLaws.BuildRefuses | os/board/epilykos/raspberrypi3/platform-env/epk_env.c:304-334 | an empty, repeated or generation name is invalid; the generation 2^64-1 overflows exactly if some `epk_` value would change; a payload beyond 16379 bytes is refused for capacity |
| EnvBuild.BuiltLooks | os/board/epilykos/raspberrypi3/platform-env/epk_env.c:317-339 | the built record reads back as the built view under every flag byte |
| EnvBuild.Build | os/board/epilykos/raspberrypi3/platform-env/epk_env.c:295-340 | the status and the checksummed record of that construction, refusals in the order of the source |
| EnvBuild.SetCrc | os/board/epilykos/raspberrypi3/platform-env/epk_env.c:46-52 | the record becomes the one checksummed record of its flag and payload |
| EnvCommit.HalfWrittenSelects | os/board/epilykos/raspberrypi3/platform-env/epk_env.c:356-363 | after the first write alone the new record is already the selected one |
| EnvCommit.CommittedSelects | os/board/epilykos/raspberrypi3/platform-env/epk_env.c:356-373 | after both writes the same copy as before is selected, and both hold the new payload |
| EnvCommit.CrashAtomic | os/board/epilykos/raspberrypi3/platform-env/epk_env.c:342-374 | for every update list and every point where power can go (before, during, after either write), the card still selects, exactly the old or exactly the new entries |
| EnvCommit.CommitAdvances | os/board/epilykos/raspberrypi3/platform-env/epk_env.c:313-337 | whatever a commit leaves, written out: generation, floor and epoch are at least what they were, one epoch keeps its policy and signature, one generation keeps every critical value |
| EnvCommit.RunsNeverGoBack | os/board/epilykos/raspberrypi3/platform-env/epk_env.c:342-397 | the same over every run of commits that succeed, are refused or are cut |
| EnvCommit.LosingOneCopy | os/board/epilykos/raspberrypi3/platform-env/epk_env.c:235-236 | after an acknowledged commit, either copy alone selects the same entries |
| EnvCommit.AcknowledgedSurvives | os/board/epilykos/raspberrypi3/platform-env/epk_env.c:342-397 | after an acknowledged commit, losing one copy and then cutting any number of commits takes nothing back |
| EnvCommit.UnacknowledgedCanBeLost | os/board/epilykos/raspberrypi3/platform-env/epk_env.c:356-363 | before the second write, losing the new copy does go back to the old entries: what replication is for |
| EnvCommit.Pass | os/board/epilykos/raspberrypi3/platform-env/epk_env.c:356-363 | one turn of the write loop: the states the card went through, and on success the written copy |
| EnvCommit.ReadBothAgain | os/board/epilykos/raspberrypi3/platform-env/epk_env.c:364-372 | success means both stored records are valid, carry the two flags and the built payload |
| EnvCommit.BackIsCommitted | os/board/epilykos/raspberrypi3/platform-env/epk_env.c:367-372 | those comparisons determine the whole card, byte for byte |
| EnvCommit.CommittedIsComplete | os/board/epilykos/raspberrypi3/platform-env/epk_env.c:367-372 | and the card after both writes passes every one of them |
| EnvCommit.CommitLoaded | os/board/epilykos/raspberrypi3/platform-env/epk_env.c:342-374 | an acknowledged commit is true for every write behaviour (dropped, torn, misaddressed) as long as reads are truthful; on an honest device every state passed is one of the crash states; a reliable device gets exactly the planned status |
| EnvCommit.Load | os/board/epilykos/raspberrypi3/platform-env/epk_env.c:376-384 | reads both copies and selects, or reports the refusal; an I/O error only on an unreliable device |
| EnvCommit.Commit | os/board/epilykos/raspberrypi3/platform-env/epk_env.c:386-397 | more than 64 updates, a refused selection or a failed build write nothing; success is the committed card, and a reliable device always reaches it |
| EnvSnapshot.DiffMember | os/board/epilykos/raspberrypi3/platform-env/epk_env.c:433-445 | the computed difference has an update for exactly the names whose values differ |
| EnvSnapshot.DiffIsGood | os/board/epilykos/raspberrypi3/platform-env/epk_env.c:429-445 | with equal generations it never names the generation and is a list the builder accepts |
| EnvSnapshot.DiffResult | os/board/epilykos/raspberrypi3/platform-env/epk_env.c:412-447 | whether it is then accepted or refused as going back, the built difference parses to the desired value under every name and the advanced generation |
| EnvSnapshot.DiffReachesDesired | os/board/epilykos/raspberrypi3/platform-env/epk_env.c:412-447 | committing it ends in exactly the desired entries, with only the generation advanced |
| EnvSnapshot.AddDiff | os/board/epilykos/raspberrypi3/platform-env/epk_env.c:399-410 | refuses exactly the 65th update or names that overflow the 16 KiB scratch buffer |
| EnvSnapshot.ComputeDiff | os/board/epilykos/raspberrypi3/platform-env/epk_env.c:433-445 | both loops together compute that difference, or capacity exactly when it does not fit |
| EnvSnapshot.CommitSnapshot | os/board/epilykos/raspberrypi3/platform-env/epk_env.c:412-447 | a damaged snapshot, a stale generation or too many differences write nothing; success is the commit of the difference |
| EnvSnapshot.SnapshotReached | os/board/epilykos/raspberrypi3/platform-env/epk_env.c:412-447 | after success the selected entries are the desired ones but for the generation |
| EnvSnapshot.UnchangedIsReplicated | os/board/epilykos/raspberrypi3/platform-env/epk_env.c:433-446 | building an empty difference succeeds with the same view: nothing but the flag and the other copy changes |
| EnvSnapshot.SameLookups | os/board/epilykos/raspberrypi3/platform-env/epk_env.c:433-445 | records that agree under every name, in whatever order, differ by no update |
| EnvSnapshot.SavingAgain | os/board/epilykos/raspberrypi3/platform-env/epk_env.c:412-447 | saving a table that agrees with the selected record under every name, in any order, succeeds and only replicates it: same entries, same generation |
| EnvSnapshot.Loader.Import | os/board/epilykos/raspberrypi3/patches/uboot/2025.10/0001-epilykos-native-state-guard.patch:68-96 | a copy that cannot be read counts as a zero record; ready exactly after a selection and import, with exactly the entries selected then; fresh (it carries the generation the card selects) exactly when that selection has it, as always when both reads worked or both copies hold the same |
| EnvSnapshot.Loader.NeverStale | os/board/epilykos/raspberrypi3/platform-env/epk_env.c:421-424 | while ready, an exported snapshot carries the selected generation exactly when the session is fresh |
| EnvSnapshot.Loader.Save | os/board/epilykos/raspberrypi3/platform-env/epk_mmc.c:42-65 | a stale session writes nothing; success stores the snapshot, refreshes the generation in RAM and leaves the session fresh; any failure ends the session |
| EnvSnapshot.ImportedGeneration | os/board/epilykos/raspberrypi3/patches/uboot/2025.10/0001-epilykos-native-state-guard.patch:74-76 | with one copy unreadable, the import has the selected generation exactly when the copy that was read is the selected one or has the same generation |
| EnvSnapshot.UnreadCopyIsStale | os/board/epilykos/raspberrypi3/patches/uboot/2025.10/0001-epilykos-native-state-guard.patch:74-76 | a critical commit cut after its first write, then an import that cannot read the newer copy: the older entries are selected, and a save of that generation is refused |
| FwEnv.EditAllLooksUp | os/board/epilykos/raspberrypi3/patches/uboot-tools/2026.04/0001-epilykos-native-state-guard.patch:106-131 | the edited image has the last word of the script under every name it mentions, and the old value under every other |
| FwEnv.ImageDecodes | os/board/epilykos/raspberrypi3/patches/uboot-tools/2026.04/0001-epilykos-native-state-guard.patch:76-89 | if the guard accepts the flushed image, it reads exactly the edited entries |
| FwEnv.SetEnv | os/board/epilykos/raspberrypi3/patches/uboot-tools/2026.04/0001-epilykos-native-state-guard.patch:76-89 | a script is flushed as one snapshot: refused scripts write nothing, success is the commit of the difference to the selected record, a cut leaves a crash state of that commit, and a reliable device gets exactly the planned status |
| EnvSeed.ParseDefaults | tools/os_bootstrap.py:35-52 | accepts exactly newline-terminated ASCII lines of distinct unreserved `name=value`, and returns them in order, split at the first `=` |
| EnvSeed.LinesEnd | tools/os_bootstrap.py:39 | a text is cut at each of the seven ASCII line breaks, CR LF as one, and what is left over is a line |
| EnvSeed.DefaultsRoundTrip | tools/os_bootstrap.py:35-52 | a nonempty dictionary of defaults written as such lines is accepted and read back entry by entry |
| EnvSeed.BuildSeed | tools/os_bootstrap.py:70-101 | builds exactly if the entries leave 64 slots and their limits plus the runtime reserve fit; the guard then selects copy B with the seeded entries, generation 0, floor and epoch, and everything the card may grow to keeps the headroom |
| EnvSeed.SeedFits | tools/os_bootstrap.py:55-61 | the two measurements pass together exactly when the limits of all entries and the reserve fit |
| EnvSeed.SeedIsSelected | tools/os_bootstrap.py:70-101 | every accepted seed is selected by the C guard as copy B, generation 0, with the given floor and epoch |
| EnvSeed.SeedHolds | tools/os_bootstrap.py:74-80 | the seeded record carries the given policy and signature under their names |
| EnvSeed.SeedKeepsDefaults | tools/os_bootstrap.py:74-80 | every default outside the reserved prefixes keeps its value |
| EnvSeed.SeedBoots | tools/os_bootstrap.py:74-80 | the boot order is A before B |
| EnvSeed.SeedTries | tools/os_bootstrap.py:74-80 | both slots start with three attempts |
| EnvSeed.WorstTotal | tools/os_bootstrap.py:83-91 | the budget fixture measures exactly the limits of the growing fields plus the runtime reserve |
| EnvSeed.SeedBudget | tools/os_bootstrap.py:81-91 | after every growing field reached its limit and 64 entries of 4096 bytes in all were added, in any order, the headroom is still free |
| EnvSeed.TotalOfPermutation | tools/os_bootstrap.py:55-61 | the size of a payload does not depend on the order `sorted` chose |
| EnvSeed.ParseEnv | tools/check_card_image.py:80-93 | succeeds exactly on records with a valid checksum and a readable payload, and returns its one reading |
| EnvSeed.HoldsIsReadable | tools/check_card_image.py:80-93 | whatever the guard decodes, the card checker can read |
| EnvSeed.ReadBoth | tools/check_card_image.py:80-93 | both readers run on one record: whatever the guard accepts the checker accepts, as the same map, length and flag; a bad checksum fails in both |
| Trust.AdmittedReadsBack | os/board/epilykos/raspberrypi3/rootfs-overlay/usr/lib/epilykos/python/epilykos_os_trust.py:409-436 | whatever image carries the three edited lines, a commit of its difference that is accepted reads back as the policy with its epoch; the floor is untouched and the epoch did not fall |
| Trust.OnlySignaturesConflict | os/board/epilykos/raspberrypi3/rootfs-overlay/usr/lib/epilykos/python/epilykos_os_trust.py:194-197 | where the Python ordering accepts a policy and the built payload parses, the guard refuses it exactly when it re-signs the current epoch with other signature bytes |
| Trust.RevocationIsFinal | os/board/epilykos/raspberrypi3/rootfs-overlay/usr/lib/epilykos/python/epilykos_os_trust.py:249-250 | over any run of cut commits, a release authorised under an older epoch than one that was in force is never offered, and an epoch keeps its policy and signature |
| Trust.RevocationSurvivesLoss | os/board/epilykos/raspberrypi3/rootfs-overlay/usr/lib/epilykos/python/epilykos_os_trust.py:409-436 | after an acknowledged admission this holds even when either copy is lost |
| Trust.ReadState | os/board/epilykos/raspberrypi3/rootfs-overlay/usr/lib/epilykos/python/epilykos_os_trust.py:389-406 | a reported state is exactly the verified state of the card: its policy has at most 6144 bytes, is signed by the root, carries the reported epoch, and floor and epoch are those the card selects; it is reported whenever there is one and the reads work |
| Trust.StateIsReported | os/board/epilykos/raspberrypi3/rootfs-overlay/usr/lib/epilykos/python/epilykos_os_trust.py:389-406 | of entries that carry a policy and a signature, the state is those bytes with epoch and floor of the record exactly if the root signed them and the policy carries that epoch |
| Trust.CheckRelease | os/board/epilykos/raspberrypi3/rootfs-overlay/usr/lib/epilykos/python/epilykos_os_trust.py:249-277 | a release is offered exactly if it is authorised under the current epoch, listed, signed, and above both the floor and this slot's own sequence |
| Trust.AdmitPolicy | os/board/epilykos/raspberrypi3/rootfs-overlay/usr/lib/epilykos/python/epilykos_os_trust.py:409-436 | an unsigned policy, one of an older epoch, or another one of the same epoch writes nothing; success means signed, the epoch not below the state's, the floor untouched, both copies replaced and exactly this policy read back; a cut leaves a crash state of that one flush; on a reliable device an acceptable policy is admitted exactly when its script is |
| Lifecycle.BootKeepsInv | os/board/epilykos/raspberrypi3/boot-slot.cmd:65-99 | a boot by the loader (first eligible slot, one attempt spent, trial marked in the same save) keeps the whole invariant |
| Lifecycle.BlockingIsSafe | os/board/epilykos/raspberrypi3/rootfs-overlay/usr/lib/epilykos/python/epilykos_os_update.py:167-183 | when `blocking` answers idle there is no job or a finished one, with no job nothing is pending; the one exception is the trial of a job that was carelessly ended while the environment named it |
| Lifecycle.BlockingAnswers | os/board/epilykos/raspberrypi3/rootfs-overlay/usr/lib/epilykos/python/epilykos_os_update.py:167-183 | what `blocking` answers, case by case: idle only with an idle guard and no job being installed, a guard file that is missing or an unreadable journal counts as reconciling |
| Lifecycle.ConfirmedSequencesIncrease | os/board/epilykos/raspberrypi3/rootfs-overlay/usr/lib/epilykos/python/epilykos_os_activate.py:167-189 | every floor change of the box's life belongs to another job, to a strictly larger sequence, after mark-good of a launched trial |
| Lifecycle.LoaderAvoidsTarget | os/board/epilykos/raspberrypi3/boot-slot.cmd:65-83 | the loader never chooses the target of a job that is neither pending nor confirmed |
| LifecycleActions.MarkActiveKeepsInv | os/board/epilykos/raspberrypi3/rootfs-overlay/usr/lib/epilykos/python/epilykos_os_activate.py:116-120 | activation keeps the invariant where the source performs it: for a named, never launched job |
| LifecycleActions.ClearKeepsInv | os/board/epilykos/raspberrypi3/rootfs-overlay/usr/lib/epilykos/python/epilykos_os_activate.py:56-64 | the environment may forget a job once its target cannot boot or it is confirmed |
| LifecycleActions.PromoteKeepsInv | os/board/epilykos/raspberrypi3/rootfs-overlay/usr/lib/epilykos/python/epilykos_os_activate.py:180-181 | raising floor and phase in one batch keeps the invariant, the floor strictly rises |
| LifecycleActions.Box.TargetBad | os/board/epilykos/raspberrypi3/rootfs-overlay/usr/lib/epilykos/python/epilykos_os_activate.py:60-64 | reports true exactly when the counter read back is zero |
| LifecycleActions.Box.Restart | os/board/epilykos/raspberrypi3/rootfs-overlay/usr/lib/epilykos/python/epilykos_os_activate.py:69-82 | only a ready job of this name without a worker moves to restarting, and nothing else changes; always when no step fails |
| LifecycleActions.Box.Discard | os/board/epilykos/raspberrypi3/rootfs-overlay/usr/lib/epilykos/python/epilykos_os_activate.py:85-96 | a job is discarded only with nothing pending and its target shown not to boot; always when no step fails |
| LifecycleActions.Box.Activate | os/board/epilykos/raspberrypi3/rootfs-overlay/usr/lib/epilykos/python/epilykos_os_activate.py:101-126 | on the source of a never launched job, every stop keeps the invariant; a reboot is asked for only after the environment says activated, with the target first and three attempts; when no step fails, exactly if the checks pass or it was activated before |
| LifecycleActions.Box.Intend | os/board/epilykos/raspberrypi3/rootfs-overlay/usr/lib/epilykos/python/epilykos_os_activate.py:106-115 | the intent is one batch that names exactly this job; whatever fails leaves the environment as it was or with that intent |
| LifecycleActions.Box.Switch | os/board/epilykos/raspberrypi3/rootfs-overlay/usr/lib/epilykos/python/epilykos_os_activate.py:116-126 | asks for the reboot only with the target first and three attempts; otherwise the job ends ready or needing a check; when no step fails it always asks |
| LifecycleActions.Box.Revalidate | os/board/epilykos/raspberrypi3/rootfs-overlay/usr/lib/epilykos/python/epilykos_os_activate.py:129-140 | passes only for a trusted release above the floor, with the target unbootable and the source first; always then when no step fails |
| LifecycleActions.Box.BackToReady | os/board/epilykos/raspberrypi3/rootfs-overlay/usr/lib/epilykos/python/epilykos_os_activate.py:143-162 | ends that same job ready with a waiting guard, nothing pending and no attempts left on the target, or needing a check under a reconciling guard; never otherwise |
| LifecycleActions.Box.ConfirmCandidate | os/board/epilykos/raspberrypi3/rootfs-overlay/usr/lib/epilykos/python/epilykos_os_activate.py:167-189 | refuses off-trial; success is one uninterrupted confirmation, and from wherever it stops another call reaches the same state; the phase only advances |
| LifecycleActions.Box.ConfirmPhases | os/board/epilykos/raspberrypi3/rootfs-overlay/usr/lib/epilykos/python/epilykos_os_activate.py:174-181 | confirming, mark-good, then floor and promoting in one batch; the floor rises only with a good trial |
| LifecycleActions.Box.EndConfirmation | os/board/epilykos/raspberrypi3/rootfs-overlay/usr/lib/epilykos/python/epilykos_os_activate.py:182-189 | record, guard and pending variables, each stop resumable |
| LifecycleActions.Box.Rebuild | os/board/epilykos/raspberrypi3/rootfs-overlay/usr/lib/epilykos/python/epilykos_os_activate.py:217-228 | the journal of the job the environment names, kept if present, else a trying one |
| LifecycleActions.Box.Reconcile | os/board/epilykos/raspberrypi3/rootfs-overlay/usr/lib/epilykos/python/epilykos_os_update.py:475-494 | the guard of every journal state; an unreadable journal stays reconciling |
| LifecycleActions.Box.ReconcileBoot | os/board/epilykos/raspberrypi3/rootfs-overlay/usr/lib/epilykos/python/epilykos_os_activate.py:233-295 | after every boot, cut anywhere: never touches the floor or the past; completed, each case has its own end: nothing pending, the target running, a rollback, an activation that was interrupted (back to ready or needing a check), and any other job that was never launched (failed, or still named under a reconciling guard) |
| LifecycleActions.Box.ReconcileUnnamed | os/board/epilykos/raspberrypi3/rootfs-overlay/usr/lib/epilykos/python/epilykos_os_activate.py:246-257 | with nothing pending: an interrupted activation goes back to ready or needs a check; otherwise only the guard changes, to the one that fits the journal |
| LifecycleActions.Box.ReconcileTarget | os/board/epilykos/raspberrypi3/rootfs-overlay/usr/lib/epilykos/python/epilykos_os_activate.py:259-268 | on the target: that job trying under a waiting guard and the environment as it was, or the missing last step of a confirmed job; always when no step fails |
| LifecycleActions.Box.ReconcileRollback | os/board/epilykos/raspberrypi3/rootfs-overlay/usr/lib/epilykos/python/epilykos_os_activate.py:272-283 | on the source after a launch: rolled back, target unbootable, nothing pending; the source first when no step fails |
| LifecycleActions.Box.ReconcileUnlaunched | os/board/epilykos/raspberrypi3/rootfs-overlay/usr/lib/epilykos/python/epilykos_os_activate.py:284-295 | on the source before any launch: a job that was restarting or ready ends ready with a waiting guard, or needing a check; failed exactly when the journal was absent or in another state and the target is shown unbootable, else reconciling |
| LifecycleWorker.Install | os/board/epilykos/raspberrypi3/rootfs-overlay/usr/lib/epilykos/python/epilykos_os_update.py:384-427 | admits one job, only a trusted one above the floor and this slot's sequence, on a confirmed boot, with an idle guard and nothing pending; exactly then when no step fails |
| LifecycleWorker.Cancel | os/board/epilykos/raspberrypi3/rootfs-overlay/usr/lib/epilykos/python/epilykos_os_update.py:430-440 | only a job still downloading or verifying; without a worker it ends here, cancelled under an idle guard, with one nothing changes |
| LifecycleWorker.Dismiss | os/board/epilykos/raspberrypi3/rootfs-overlay/usr/lib/epilykos/python/epilykos_os_update.py:443-449 | forgets a finished job; it counts as carelessly ended if the environment still names it |
| LifecycleWorker.FailInstall | os/board/epilykos/raspberrypi3/rootfs-overlay/usr/lib/epilykos/python/epilykos_os_update.py:788-806 | failed only with the target shown unbootable and the source first, else needing a check; when no step fails, failed exactly if the source is in the boot order |
| LifecycleWorker.CompleteInstall | os/board/epilykos/raspberrypi3/rootfs-overlay/usr/lib/epilykos/python/epilykos_os_update.py:753-785 | ready only if the slot matches the signed image, cannot boot yet and the source is first; exactly then when no step fails |
| LifecycleWorker.Work | os/board/epilykos/raspberrypi3/rootfs-overlay/usr/lib/epilykos/python/epilykos_os_update.py:555-589 | which end each outcome gets: failed without a change of the environment if the package was not downloaded or verified, cancelled if asked, else ready, failed or needing a check; when no step fails, ready exactly if installed and matching |
| LifecycleWorker.InstallBundle | os/board/epilykos/raspberrypi3/rootfs-overlay/usr/lib/epilykos/python/epilykos_os_update.py:729-750 | an installation ends ready, failed or needing a check; when no step fails, ready exactly if RAUC installed it and the slot matches |
| LifecycleWorker.LeaselessRestart | os/board/epilykos/raspberrypi3/rootfs-overlay/usr/lib/epilykos/python/epilykos_os_update.py:533-542 | ending a restarting job for want of the lease, launched or not, keeps the promise about finished jobs exactly while its target neither can boot nor runs (or nothing is pending, or the job is already carelessly ended) |
| LifecycleWorker.LeaselessKeepsInv | os/board/epilykos/raspberrypi3/rootfs-overlay/usr/lib/epilykos/python/epilykos_os_update.py:533-542 | otherwise it counts as carelessly ended, is the job the environment names, and everything else the invariant says survives |
| LifecycleWorker.RunWorker | os/board/epilykos/raspberrypi3/rootfs-overlay/usr/lib/epilykos/python/epilykos_os_update.py:526-552 | the worker on whatever the journal holds, the lease taken or not: every job ends where its outcomes say; a reboot is asked for only after the environment says activated; never touches the floor |
| LifecycleWorker.HealthyBoot | os/board/epilykos/raspberrypi3/rootfs-overlay/usr/lib/epilykos/python/epilykos_boot_health.py:186-224 | only a marked trial goes to the coordinator, and completed it is confirmed, nothing is pending and the floor is its sequence; any other boot is only marked good |
| LifecycleWorker.Reboot | os/board/epilykos/raspberrypi3/boot-slot.cmd:7-99 | halts without a change, or boots the first slot of the order with attempts left: one is spent, a pending target is marked, and nothing else changes |
| LifecycleWorker.ChooseSlot | os/board/epilykos/raspberrypi3/boot-slot.cmd:65-83 | the loop finds the first slot of the order with attempts left, exactly when there is one and the environment is one the loader accepts |
| LifecycleWorker.JournalLoss | os/board/epilykos/raspberrypi3/rootfs-overlay/usr/lib/epilykos/python/epilykos_os_update.py:128-156 | losing the journal file keeps the invariant exactly when the guard is not idle, nothing is pending or the named job is already carelessly ended; an unreadable journal always does |
| LifecycleWorker.LoseData | os/board/epilykos/raspberrypi3/rootfs-overlay/usr/lib/epilykos/python/epilykos_os_update.py:128-156 | guard and journal lost or damaged in any combination: only the journal lost alone, under an idle guard while the environment names a job, counts as a careless end |
| LifecycleWorker.Act | os/board/epilykos/raspberrypi3/rootfs-overlay/usr/lib/epilykos/python/epilykos_os_activate.py:233-295 | any action keeps the invariant; a floor change is a confirmation on trial; a job is carelessly ended by exactly three events: a dismissal while named, a leaseless end while its target can boot or runs, the loss of its journal alone under an idle guard |
| LifecycleWorker.FloorNeverDrops | os/board/epilykos/raspberrypi3/rootfs-overlay/usr/lib/epilykos/python/epilykos_os_activate.py:180-181 | the floor follows the log of confirmations, so it never drops |
| LifecycleWorker.Life | os/board/epilykos/raspberrypi3/rootfs-overlay/usr/lib/epilykos/python/epilykos_os_activate.py:101-295 | over any sequence of actions, cuts, boots and damage to DATA, in reconciled boots and others, the invariant holds and the floor never drops |
| LifecycleClaims.TrialFallsBack | os/board/epilykos/raspberrypi3/boot-slot.cmd:65-99 | boots in a row: a trial that never becomes healthy is over after its remaining attempts, the source runs, the marker is there, the target has none left |
| LifecycleClaims.EndOfTrial | os/board/epilykos/raspberrypi3/rootfs-overlay/usr/lib/epilykos/python/epilykos_os_activate.py:272-283 | in any life: once three boots found a trial unhealthy, or its attempts are gone, the loader starts the source and the next completed reconciliation records the rollback |
| LifecycleClaims.NoRollbackWithoutLaunch | os/board/epilykos/raspberrypi3/rootfs-overlay/usr/lib/epilykos/python/epilykos_os_activate.py:272-295 | no journal says rolled back or confirmed for a job that was never launched |
| LifecycleClaims.AtMostThreeTrials | os/board/epilykos/raspberrypi3/boot-slot.cmd:65-99 | at most three boots of a target before its trial is found healthy |
| LifecycleClaims.RebuildKeepsExclusion | os/board/epilykos/raspberrypi3/rootfs-overlay/usr/lib/epilykos/python/epilykos_os_activate.py:217-228 | a rebuilt journal keeps maintenance excluded exactly when the guard is not idle or there was a journal |
| LifecycleClaims.DismissWhileNamedBreaksExclusion | os/board/epilykos/raspberrypi3/rootfs-overlay/usr/lib/epilykos/python/epilykos_os_update.py:443-449 | the first exception is reachable: a rollback cut before its last batch, then dismissed |
| LifecycleClaims.LeaselessEndBreaksExclusion | os/board/epilykos/raspberrypi3/rootfs-overlay/usr/lib/epilykos/python/epilykos_os_update.py:533-542 | the second, without a dismissal: an activated job whose restarted worker finds no lease, then the boot of its target |
| LifecycleClaims.LeaselessTrialBreaksExclusion | os/board/epilykos/raspberrypi3/rootfs-overlay/usr/lib/epilykos/python/epilykos_os_update.py:533-542 | the same with no attempts left: a trial whose reconciliation raised, its worker without a lease, then the next reconciliation |
| LifecycleClaims.ExclusionFailsExactly | os/board/epilykos/raspberrypi3/rootfs-overlay/usr/lib/epilykos/python/epilykos_os_update.py:167-183 | exclusion fails exactly beside the trial of a carelessly ended job under an idle guard |
| LifecycleClaims.TrialKeepsExclusion | os/board/epilykos/raspberrypi3/rootfs-overlay/usr/lib/epilykos/python/epilykos_os_activate.py:265-267 | putting a job on trial keeps maintenance excluded exactly when the guard is not idle |
| LifecycleClaims.HonestRebuildIsGuarded | os/board/epilykos/raspberrypi3/rootfs-overlay/usr/lib/epilykos/python/epilykos_os_activate.py:217-228 | for every job that was not carelessly ended, what reconciliation rebuilds or puts on trial stands under a guard that is not idle |
| LifecycleClaims.UnreconciledActivationBreaksTarget | os/board/epilykos/raspberrypi3/rootfs-overlay/usr/bin/epilykos-hostd:287-300 | a reachable boot whose reconciliation raised, where activation would make an unconfirmed target bootable |
| LifecycleClaims.ActivationIsSafeExactly | os/board/epilykos/raspberrypi3/rootfs-overlay/usr/lib/epilykos/python/epilykos_os_activate.py:101-162 | the retreat of activation keeps the invariant exactly when the named job was never launched, which is exactly being on its source without the trial marker |
| LifecycleClaims.ReconciledMayActivate | os/board/epilykos/raspberrypi3/rootfs-overlay/usr/lib/epilykos/python/epilykos_os_activate.py:233-295 | a completed reconciliation always ends where activation is safe |
| LifecycleClaims.ConfirmationResumes | os/board/epilykos/raspberrypi3/rootfs-overlay/usr/lib/epilykos/python/epilykos_os_activate.py:167-189 | stopped after any of its durable writes and called again in the same boot, a confirmation ends where one call ends |
| LifecycleClaims.ConfirmsExactly | os/board/epilykos/raspberrypi3/rootfs-overlay/usr/lib/epilykos/python/epilykos_os_activate.py:167-189 | a call on the trial ends confirmed, idle and with nothing pending exactly when it can take over and the journal is readable; where it cannot take over it changes nothing |
| Supervisor.Stays | os/board/epilykos/raspberrypi3/rootfs-overlay/usr/lib/epilykos/python/epilykos_boot_health.py:132-147 | done and rebooting are never left over any run of ticks; the environment once read, the start of each command and the record stay |
| Supervisor.LeavesInTime | os/board/epilykos/raspberrypi3/rootfs-overlay/usr/lib/epilykos/python/epilykos_boot_health.py:132-224 | every run, the first tick of a restarted service included, leaves checking at the first tick after the deadline, and is decided after 15 s more to read the environment and 300 s more for the last command |
| Supervisor.RebootEscalates | os/board/epilykos/raspberrypi3/rootfs-overlay/usr/lib/epilykos/python/epilykos_boot_health.py:234-252 | each stage of a reboot gives way to the next once 60, 120 and 60 seconds have passed, the second and third not before; each starts its own command: reboot, forced reboot, kernel reset |
| Supervisor.ConfirmedIsHealthy | os/board/epilykos/raspberrypi3/rootfs-overlay/usr/lib/epilykos/python/epilykos_boot_health.py:162-224 | over any run: a confirming or decided boot, a started mark-good or coordinator, and the record all need a tick, before the deadline, that saw DATA mounted, podman answer zero and the container say `healthy` |
| Supervisor.HealthIsNoticed | os/board/epilykos/raspberrypi3/rootfs-overlay/usr/lib/epilykos/python/epilykos_boot_health.py:162-184 | and the other way round such a tick leaves checking, unless the time is up or DATA failed |
| Supervisor.RebootHasReason | os/board/epilykos/raspberrypi3/rootfs-overlay/usr/lib/epilykos/python/epilykos_boot_health.py:139-160 | over any run: a rebooting box saw the deadline pass or `data.mount` failed |
| Supervisor.RecordNeedsZeroExit | os/board/epilykos/raspberrypi3/rootfs-overlay/usr/lib/epilykos/python/epilykos_boot_health.py:213-223 | over any run: the record needs a zero exit of mark-good or the coordinator |
| Supervisor.StartedFitsEnv | os/board/epilykos/raspberrypi3/rootfs-overlay/usr/lib/epilykos/python/epilykos_boot_health.py:199-212 | what is started fits the environment that was read: the coordinator exactly on a trial the loader launched on this slot, mark-good exactly otherwise |
| Supervisor.StartsOnce | os/board/epilykos/raspberrypi3/rootfs-overlay/usr/lib/epilykos/python/epilykos_boot_health.py:202-212 | over any run, mark-good or the coordinator starts once |
| Supervisor.Result | os/board/epilykos/raspberrypi3/rootfs-overlay/usr/lib/epilykos/python/epilykos_boot_health.py:73-84 | none only while the command runs within its bound, timed out only beyond it; an unstartable one is exit 127 |
| Supervisor.Watch.DataMountFailed | os/board/epilykos/raspberrypi3/rootfs-overlay/usr/lib/epilykos/python/epilykos_boot_health.py:149-160 | fails exactly on a zero exit of `is-failed`, asked only while DATA is not mounted and at most every ten seconds |
| Supervisor.Watch.CheckHealth | os/board/epilykos/raspberrypi3/rootfs-overlay/usr/lib/epilykos/python/epilykos_boot_health.py:162-181 | healthy exactly if DATA is mounted, podman answered zero and the container said `healthy`, in that order |
| Supervisor.Watch.Check | os/board/epilykos/raspberrypi3/rootfs-overlay/usr/lib/epilykos/python/epilykos_boot_health.py:162-184 | leaves checking exactly when DATA is mounted, podman answered zero and the container said `healthy`; then it ends where a confirming tick may end |
| Supervisor.Watch.ConfirmWithEnv | os/board/epilykos/raspberrypi3/rootfs-overlay/usr/lib/epilykos/python/epilykos_boot_health.py:186-224 | mark-good never on a trial, the coordinator only on one; the record follows only a zero exit |
| Supervisor.Watch.ContinueReboot | os/board/epilykos/raspberrypi3/rootfs-overlay/usr/lib/epilykos/python/epilykos_boot_health.py:234-252 | one stage at a time, timed from the last, each starting its own command and nothing else |
| Supervisor.Watch.Branch | os/board/epilykos/raspberrypi3/rootfs-overlay/usr/lib/epilykos/python/epilykos_boot_health.py:132-147 | every tick relates to the last one as the run claims require |
| Supervisor.Watch.Step | os/board/epilykos/raspberrypi3/rootfs-overlay/usr/lib/epilykos/python/epilykos_boot_health.py:132-147 | every tick beats the watchdog once and extends a legal run by one tick |
| Download.Staging.Transfer | os/board/epilykos/raspberrypi3/rootfs-overlay/usr/lib/epilykos/python/epilykos_os_update.py:633-681 | one attempt, with kills, is exactly the step function, for any answer at all; only a full answer replaces the validator, a missing answer or a wrong range is tried again, any other answer is refused |
| Download.Staging.Ask | os/board/epilykos/raspberrypi3/rootfs-overlay/usr/lib/epilykos/python/epilykos_os_update.py:633-642 | resumes at the end of the part exactly if there is a validator and the part is not too long, else at the start |
| Download.Staging.Receive | os/board/epilykos/raspberrypi3/rootfs-overlay/usr/lib/epilykos/python/epilykos_os_update.py:660-680 | the read loop appends exactly the chunks read, and ends as the step function says |
| Download.Staging.Fetch | os/board/epilykos/raspberrypi3/rootfs-overlay/usr/lib/epilykos/python/epilykos_os_update.py:602-623 | is a run of such steps, at most `attempts` of them, only dropped ones repeated; a package is returned exactly if the last one finished, has exactly the signed size and is the final part; without a kill in the window it is the start of its body |
| Download.PatientReading | os/board/epilykos/raspberrypi3/rootfs-overlay/usr/lib/epilykos/python/epilykos_os_update.py:660-680 | a reading that no cancellation or error stops takes the whole answer: it finishes, drops or is refused exactly by the size it reaches |
| Download.ReadingStops | os/board/epilykos/raspberrypi3/rootfs-overlay/usr/lib/epilykos/python/epilykos_os_update.py:660-680 | a cancellation or a read error before the end of the answer stops it there, cancelled or dropped |
| Download.WholeBodyFinishes | os/board/epilykos/raspberrypi3/rootfs-overlay/usr/lib/epilykos/python/epilykos_os_update.py:633-681 | a full answer of the signed size, or the exact rest of a resumed part, finishes the package with those bytes |
| Download.StepMatches | os/board/epilykos/raspberrypi3/rootfs-overlay/usr/lib/epilykos/python/epilykos_os_update.py:633-681 | with an honest server, a full answer or a refused range leaves a part that starts its body unless a kill breaks it, and every other answer keeps what was there, both ways |
| Download.KillInWindow | os/board/epilykos/raspberrypi3/rootfs-overlay/usr/lib/epilykos/python/epilykos_os_update.py:650-658 | killed between saving the validator and truncating, the part starts its body exactly if it was empty, the new validator is absent or the old one, or it starts the new body |
| Download.StepSize | os/board/epilykos/raspberrypi3/rootfs-overlay/usr/lib/epilykos/python/epilykos_os_update.py:667-680 | the part never grows past the signed size, and a finished one has it |
| Download.BrokenExactly | os/board/epilykos/raspberrypi3/rootfs-overlay/usr/lib/epilykos/python/epilykos_os_update.py:602-681 | over any run of attempts and worker runs, kills included: the part is not the start of its body exactly if some kill broke it and no answer restarted it since |
| Download.KillCanMixBodies | os/board/epilykos/raspberrypi3/rootfs-overlay/usr/lib/epilykos/python/epilykos_os_update.py:650-658 | three attempts that end in a finished package of the right size mixed from two bodies |
| Download.PartsAgree | os/board/epilykos/raspberrypi3/rootfs-overlay/usr/lib/epilykos/python/epilykos_os_update.py:602-681 | without kills in that window every part of a run starts its body, and parts under one validator are prefixes of each other |
| AppUpdate.PuttingBackAgrees | os/board/epilykos/raspberrypi3/rootfs-overlay/usr/lib/epilykos/python/epilykos_update.py:378-387 | the handler's restoration agrees with the reported release exactly when `current.json` was not yet written |
| AppUpdate.LeavingAgrees | os/board/epilykos/raspberrypi3/rootfs-overlay/usr/lib/epilykos/python/epilykos_update.py:378-387 | when it cannot restore, exactly the other way round |
| AppUpdate.RecoveryAgrees | os/board/epilykos/raspberrypi3/rootfs-overlay/usr/lib/epilykos/python/epilykos_update.py:399-409 | recovery ends in agreement from any files |
| AppUpdate.RecoveryGoesBackTo | os/board/epilykos/raspberrypi3/rootfs-overlay/usr/lib/epilykos/python/epilykos_update.py:399-409 | and what it goes back to is the candidate once `current.json` was written |
| AppUpdate.GuardedUnlessBetween | os/board/epilykos/raspberrypi3/rootfs-overlay/usr/lib/epilykos/python/epilykos_update.py:371-372 | the anti-replay floor covers the promoted release exactly unless a stop fell between `current.json` and `floor` |
| AppUpdate.OlderAdmittedAfterStop | os/board/epilykos/raspberrypi3/rootfs-overlay/usr/lib/epilykos/python/epilykos_update.py:305-306 | then an older release than the promoted one is admitted |
| AppUpdate.AdmittedMeans | os/board/epilykos/raspberrypi3/rootfs-overlay/usr/lib/epilykos/python/epilykos_update.py:305-306 | a candidate is admitted exactly if it is newer than the baseline and the floor and differs in digest from what runs |
| AppUpdate.CandidateIsStarted | os/board/epilykos/raspberrypi3/rootfs-overlay/usr/bin/epilykos-run:23-31 | the healthy start is the candidate's exactly when its sequence has at most nine digits (or the images are one) |
| AppUpdate.SelectedStarts | os/board/epilykos/raspberrypi3/rootfs-overlay/usr/bin/epilykos-run:23-31 | what is started is what the files select, exactly unless its sequence has more than nine digits or its image is missing; otherwise the baseline is |
| AppUpdate.AgreeingOnEverySlot | os/board/epilykos/raspberrypi3/rootfs-overlay/usr/lib/epilykos/python/epilykos_update.py:139-163 | the files agree whichever baseline boots exactly when `active.env` names `current.json` or neither exists |
| AppUpdate.NewerBaselineAgrees | os/board/epilykos/raspberrypi3/rootfs-overlay/usr/lib/epilykos/python/epilykos_update.py:27-29 | a slot with a newer baseline never disturbs agreement |
| AppUpdate.PromotionSettles | os/board/epilykos/raspberrypi3/rootfs-overlay/usr/lib/epilykos/python/epilykos_os_activate.py:192-214 | a finished bundling agrees on every slot and the floor covers it |
| AppUpdate.RetriedPromotion | os/board/epilykos/raspberrypi3/rootfs-overlay/usr/lib/epilykos/python/epilykos_os_activate.py:192-214 | stopped after n writes and repeated, bundling reaches its end exactly if n is at most 1 or 4, or the skipped writes change nothing |
| AppUpdate.BundlingStopAgrees | os/board/epilykos/raspberrypi3/rootfs-overlay/usr/lib/epilykos/python/epilykos_os_activate.py:192-214 | a bundling that stops disturbs an agreement exactly between `current.json` and `active.env`, while another release runs on this slot |
| AppUpdate.AgreeingOnOneSlot | os/board/epilykos/raspberrypi3/rootfs-overlay/usr/lib/epilykos/python/epilykos_update.py:139-163 | on one slot the files agree exactly when, of the releases at least as new as its baseline, both name the same, or one names the baseline and the other none |
| AppUpdate.HarmlessBoots | os/board/epilykos/raspberrypi3/rootfs-overlay/usr/lib/epilykos/python/epilykos_update.py:27-29 | a boot of the same or a newer baseline, or with settled files, is never a fault |
| AppUpdate.Updater.Promote | os/board/epilykos/raspberrypi3/rootfs-overlay/usr/lib/epilykos/python/epilykos_update.py:367-377 | writes previous, current, floor, result in order: previous names the release that ran before unless that was the baseline, current the candidate, the floor its sequence; never removes an image that `current.json` or `active.env` names; `previous.json` can go on naming a removed one when the baseline ran before |
| AppUpdate.Updater.Launch | os/board/epilykos/raspberrypi3/rootfs-overlay/usr/lib/epilykos/python/epilykos_update.py:348-366 | done only when the selected candidate was started and reported healthy; what then runs is the candidate, or the baseline for a sequence the start script cannot read |
| AppUpdate.Updater.Try | os/board/epilykos/raspberrypi3/rootfs-overlay/usr/lib/epilykos/python/epilykos_update.py:346-377 | nothing is promoted before a healthy start; the four files, one by one, after any number of writes; when no step fails, all of them exactly if the candidate becomes healthy |
| AppUpdate.Updater.PutBack | os/board/epilykos/raspberrypi3/rootfs-overlay/usr/lib/epilykos/python/epilykos_update.py:378-389 | reports rolled back only after the old selection was restored and, if started, runs |
| AppUpdate.Updater.Handled | os/board/epilykos/raspberrypi3/rootfs-overlay/usr/lib/epilykos/python/epilykos_update.py:343-389 | the attempt with its handler: restored only after a failure, promoted or as before; when no step fails, the result says which |
| AppUpdate.Updater.Run | os/board/epilykos/raspberrypi3/rootfs-overlay/usr/lib/epilykos/python/epilykos_update.py:343-396 | the four files, one by one, after any number of writes, restored or not: `previous.json` names what ran before; agreement, guard and floor exactly; results that tell the truth about promotion; when no step fails, promoted exactly if healthy, else restored |
| AppUpdate.Updater.Recover | os/board/epilykos/raspberrypi3/rootfs-overlay/usr/lib/epilykos/python/epilykos_update.py:399-409 | without a job nothing changes; with one, agreement before the job file goes |
| AppUpdate.Updater.Decide | os/board/epilykos/raspberrypi3/rootfs-overlay/usr/lib/epilykos/python/epilykos_update.py:286-306 | goes on exactly for an admitted candidate with no other job and, if automatic, the release decided for and not yet attempted |
| AppUpdate.Updater.Apply | os/board/epilykos/raspberrypi3/rootfs-overlay/usr/lib/epilykos/python/epilykos_update.py:281-331 | starts only an admitted candidate with no other job, newer than baseline and floor; an automatic sequence begins at most once; an allowed update that is not begun has a reason unless a step failed |
| AppUpdate.Updater.BundleApp | os/board/epilykos/raspberrypi3/rootfs-overlay/usr/lib/epilykos/python/epilykos_os_activate.py:192-214 | the four files, one by one, after n of its writes: previous names what was current on the same channel, current and active the baseline; a bundled baseline writes nothing; the stored floor never drops |
| AppUpdate.Updater.Start | os/board/epilykos/raspberrypi3/rootfs-overlay/usr/bin/epilykos-hostd:287-317 | after a cut, a restart or a boot of either slot: recovered, or the job still there |
| AppUpdate.Happen | os/board/epilykos/raspberrypi3/rootfs-overlay/usr/lib/epilykos/python/epilykos_update.py:281-409 | one event, cut anywhere: its outcome accounts for the files, an agreement is kept exactly unless the outcome is one of three named faults, and the stored floor never drops |
| AppUpdate.AgreesThroughout | os/board/epilykos/raspberrypi3/rootfs-overlay/usr/lib/epilykos/python/epilykos_update.py:281-409 | over a whole run without such a fault, the box runs what it reports whenever no job file is left |
| AppUpdate.RecoveryRepairs | os/board/epilykos/raspberrypi3/rootfs-overlay/usr/lib/epilykos/python/epilykos_update.py:399-409 | a job file only goes away unfinished at a start of hostd, and then the files agree whatever happened before |
| AppUpdate.Live | os/board/epilykos/raspberrypi3/rootfs-overlay/usr/lib/epilykos/python/epilykos_update.py:281-409 | any sequence of updates, confirmations, cuts and boots is such a run; the floor rose only to healthy candidates and confirmed baselines |
| Devicetree.RunFlatten | tools/slot_linux.py:51-91 | counting through a node is counting through its items |
| Devicetree.RunRoot | tools/slot_linux.py:51-91 | one root with NOPs around it is accepted as its inside is |
| Devicetree.SplitAtClose | tools/slot_linux.py:66-69 | a run that ends below its depth splits into well-nested items, their close and the rest |
| Devicetree.CountingAcceptsTrees | tools/slot_linux.py:51-92 | depth counting accepts a token stream exactly when it is one empty-named, well-nested root with one `compatible` listing both names |
| Devicetree.LexHere | tools/slot_linux.py:54-89 | one token of the block as section 5.4 of the Devicetree Specification lays it out, every read in bounds |
| Devicetree.CheckStructure | tools/slot_linux.py:51-92 | the loop terminates and accepts exactly the blocks whose tokens end at the declared size and form such a tree |
| Devicetree.CheckDtb | tools/slot_linux.py:43-92 | the same for whole blobs, header checks included; `EmittedBlobIsChecked` says it without the reader |
| Devicetree.HeaderIsRead | tools/slot_linux.py:46-50 | ten big-endian words laid out in the order of section 5.2 of the Devicetree Specification are read back field by field, and the header is accepted exactly if magic, total size, versions, alignment and the four extents are right |
| Devicetree.EmitLexes | tools/slot_linux.py:54-89 | a token laid out by a compiler is lexed as itself |
| Devicetree.EmittedIsRead | tools/slot_linux.py:53-89 | a whole emitted block is read back as its tokens |
| Devicetree.TokensFillBlock | tools/slot_linux.py:53-92 | the tokens of a block, with their padding, fill it exactly up to its end token |
| Devicetree.EmittedBlobIsChecked | tools/slot_linux.py:43-92 | a blob laid out word by word as the specification says (header, reservations, structure, strings) is accepted exactly when its tokens form a tree of the right board |
| Devicetree.ListedStands | tools/slot_linux.py:81-90 | a string is listed exactly if it stands in the value between NULs, or at its ends |
| Devicetree.CompatibleMember | tools/slot_linux.py:78-81 | the values counted as `compatible` are exactly those of the properties of that name |
| Devicetree.BoardIsListed | tools/slot_linux.py:78-90 | a tree is of the right board exactly if its root has one property named `compatible` and both board names stand in its value |

## Left out

- OpenSSL, CMS, X.509, Ed25519 and SHA-256: signatures and hash comparisons are opaque outcomes.
- CRC-32's error detection: used only through the hypothesis that a cut record fails its checksum.
- JSON parsing and the field-by-field validation of policies, entries and manifests: boolean conjunctions.
- HTTP, subprocess, D-Bus, locks and file-system mechanics: each call is one step with any outcome, each atomic rename with fsync one durable write.
- EnvParse.Parse: entries are copies of the bytes, not pointers into the record, so aliasing of the buffer is not modelled; an entry that ends at the last byte is refused at once instead of after the loop, with the same status.
- EnvBuild.Build: a NULL update name and an empty one are the same refused name; a NULL update array with a count is not modelled.
- EnvBuild.BuildThenParse: stated for names without `=`; DecodingIsNormal says what happens for the others.
- EnvSnapshot.Loader.Import: the hash import belongs to U-Boot, which is not part of this model; it may fail, and otherwise takes over every entry.
- EnvSnapshot.Loader.Save: the export of the hash table into a record and setting a variable belong to U-Boot too; the first is a premise, the second may fail.
- EnvSnapshot.UnreadCopyIsStale: that a record of zeros fails its checksum is a premise.
- FwEnv.SetEnv: the script's text parser and variable attributes belong to u-boot-tools, which is not part of this model; the bytes of the image after its closing NUL play no part and are zero here; scripts that name the generation are refused before.
- EnvSeed.BuildSeed: the order `sorted` returns is a parameter, any permutation of the dictionary; the size report and the hashes are left out.
- Trust.AdmitPolicy: the script file and the process that runs it are one call of FwEnv.SetEnv.
- LifecycleWorker.RunWorker: the source never re-checks that the running slot is the job's source, so going on with a job whose slot fell back before ready is excluded (ending it for a cancellation or for want of the lease is not); so is activating a job that was already launched, where ActivationIsSafeExactly shows that the source breaks its own promise.
- LifecycleWorker.Act: hostd actions are atomic; a worker in one of the two cases RunWorker excludes does nothing.
- LifecycleWorker.Install: whether the release is listed and signed is the parameter `trusted`, as in Activate and RunWorker; Trust.CheckRelease says what is checked.
- LifecycleActions.Box.Save: an exception while saving ends the process, like a cut.
- LifecycleActions.Box.ConfirmCandidate: the application promotion inside it is opaque here and modelled in AppUpdate.
- LifecycleClaims.TrialFallsBack: needs attempts left on the source; with none the loader halts with the counters kept.
- Supervisor.Watch.Check: a command's output is taken without the blanks around it; logging and notifications are left out apart from counting beats.
- Supervisor.Watch.ReadEnvironment: how the lines of `fw_printenv` become names and values is an opaque function of its output.
- Supervisor.Watch.ContinueReboot: whether a reboot command could be started at all makes no difference and is not told apart.
- Download.Staging.Fetch: the server keeps the promise of section 13.1.5 of RFC 9110; a mixed package is still refused by the signed hash, which is outside this part.
- AppUpdate.Updater.Apply: the lease and the compatibility check are the parameter `allowed`, the health of a start the parameter `healthy` of Run; fetching and verifying a manifest is one outcome; one writer at a time, as the maintenance lease arranges.
- AppUpdate.Happen: images are removed only by the updater; files are absent or well formed.
- Devicetree.CheckDtb: which message an exception carries.
- The kernel image and module checks of the slot builder, card layout, release gates, version numbering and contract validation: only easy members.
- Wi-Fi, Bluetooth, SSH keys, port, time zone, dashboard password and factory-reset handling: mostly I/O.
- The documentation calls a failed update rolled back to the previous version in all cases; where the code differs the model follows the code, as listed above.
