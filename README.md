# gitup, modelled in Dafny

gitup is a small command-line tool that manages the git identity of a user:
it keeps named profiles (a name and an email) in `~/.git_profiles.toml`,
switches git's global `user.name` and `user.email` to a profile, backs the
two values up to a text file and restores them, and installs git with the
package manager of the host OS.

This project models the library (`src/lib.rs`) and the argument loop of the
program (`src/main.rs`). The machine is a value:

- `Environment.World` is everything the program changes. It holds git's
  global configuration as a map, the profile file (`Absent`, `Corrupt`, or
  `Stored` with a map), the other files by path, and the log of every
  external command the program tried to spawn.
- `Environment.Env` is what the program only observes during one run. It
  holds the OS, which commands launch, which of them exit successfully,
  whether the home directory is found, whether the profile file can be read
  and written, which paths can be created, and which existing paths can be
  opened and read.

Each library function has a functional model over `(Env, World)`:

- `ConfigBridge` covers `configure_git` and `get_git_config`.
- `ProfileStore` covers `load_profiles`, `save_profiles`, `create_profile`
  and `use_profile`.
- `BackupCodec` covers `backup_config` and `restore_config`. It splits out a
  serialiser, a line parser and an apply loop.
- `Installer` covers `is_git_installed`, `install_git` and `run_command`.

`Library.Host` is a class with the four world fields. It has one method per
library function, which performs the source's steps in the source's order
and is proved to end in the result and state that the functional model
gives. `Cli.Run` is the program on a host: the argument loop
(`Cli.ScanLoop`: five option slots, a cursor that moves by one or two,
immediate actions), then the profile, backup and restore steps
(`Cli.AfterLoop`). The five slots are held together as one `Slots` value,
and the options are matched through a table (`Cli.Options`). It is proved equal to `Cli.RunSpec`, a
pure scan (`Cli.ScanArgs`) followed by the effects.

`Text` gives the standard-library string operations the code relies on:
`str::trim`, `str::lines` and `str::split`.

## Model

| member | source | states |
|---|---|---|
| Environment.Spawn | src/lib.rs:86-99 | every spawn attempt is logged; the launch fails exactly when the command does not launch; a launched `git config --global k v` stores `v` only if it exits successfully; `git config --global k` prints the stored value and a newline |
| Text.Trim | src/lib.rs:121 | the result is the slice of the input that starts after its leading whitespace and leaves only whitespace after it; it has no whitespace at either end, is empty exactly when the input is all whitespace, and is the input itself when the input is already trimmed |
| Text.LeadingCount | src/lib.rs:121 | the number of leading characters `trim` drops: all of them are whitespace and the character after them is not |
| Text.TrimDropsTrailingWhitespace | src/lib.rs:121 | appending whitespace (such as git's final newline) does not change what `trim` returns |
| Text.LeadingCountOfConcat | src/lib.rs:121 | once a string holds something besides whitespace, appending more text does not change how much leading whitespace `trim` drops |
| Text.Lines | src/lib.rs:204 | `str::lines`: no line holds a newline, a non-empty input has at least one line, and there are never more lines than characters |
| Text.LinesOfLine | src/lib.rs:204 | text without a newline, then a newline, then the rest: `lines` gives that text without a final carriage return, then the lines of the rest |
| Text.LinesOfCrLf | src/lib.rs:204 | a line ended by `\r\n` comes back as the line itself, then the lines of the rest |
| Text.LinesOfUnterminated | src/lib.rs:204 | a last line without a newline is kept whole, even when it ends in a carriage return |
| Text.LinesOfTerminated | src/lib.rs:204 | a line without newline or final carriage return, followed by a newline, comes back from `lines` as itself, followed by the lines of the rest |
| Text.Split | src/lib.rs:205 | `split(c)` gives one more part than there are `c`s, no part contains `c`, and a single part is the whole input |
| Text.SplitPair | src/lib.rs:205-206 | two pieces joined by one separator split back into exactly those two pieces |
| ConfigBridge.ConfigValue | src/lib.rs:121-125 | what a read reports once git launched: `None` exactly when the key is unset or only whitespace, otherwise a non-empty trimmed value, which is the stored value when that is already trimmed |
| ConfigBridge.GetGitConfig | src/lib.rs:118-132 | only the read command is spawned and nothing else changes; a launch failure is `CommandFailed("Failed to retrieve Git configuration")`; otherwise the trimmed stored value; `Ok(None)` exactly when launched and the key is unset or blank |
| ConfigBridge.ConfigureGit | src/lib.rs:85-107 | `user.name` is written before `user.email`; if the first command does not launch, the second is never spawned and the error names `user.name`; success exactly when both launch, whatever their exit status; each write takes effect only when its command succeeds |
| ConfigBridge.ConfigureThenGet | src/lib.rs:282-290 | after both writes succeed, reading either key gives back the value written, for non-empty trimmed values |
| ProfileStore.LoadProfiles | src/lib.rs:219-229 | no home directory is `CommandFailed`; an absent file is the empty map; a corrupt file is always an error, never the empty map, and `CommandFailed("Failed to parse profile file")` when readable; success exactly when home is found and the file is absent or stored and readable |
| ProfileStore.SaveProfiles | src/lib.rs:239-244 | success exactly when home is found and the file is writable, and then the store is replaced by the given map; a save that fails before writing changes nothing |
| ProfileStore.CreateProfile | src/lib.rs:144-151 | a failed load writes nothing and returns the load error; on success the entry holds the new name and email, every other entry is unchanged, the key set gains at most that name, and re-creating an existing name keeps the size |
| ProfileStore.UseProfile | src/lib.rs:161-168 | a failed load or an unknown name (`CommandFailed("Profile not found")`) changes nothing; a known name runs `configure_git` with exactly that profile's name and email |
| ProfileStore.CreateThenUse | src/lib.rs:302-312 | creating a profile and then using it succeeds and sets `user.name` and `user.email` to the profile's fields |
| ProfileStore.RecreateOverwrites | src/lib.rs:146-149 | creating the same profile twice on an empty store leaves exactly one entry, with the second identity |
| BackupCodec.Serialise | src/lib.rs:181-186 | the backup text is empty exactly when neither value is set; it ends with a newline; it starts with the `user.name` line when the name is set and ends with the `user.email` line when the email is set |
| BackupCodec.ParseBackup | src/lib.rs:204-206 | every pair comes from a line of the content and holds neither `=` nor a newline; every line with exactly one `=` gives a pair; never more pairs than lines |
| BackupCodec.ParseLine | src/lib.rs:205-206 | a line is accepted exactly when it holds one `=`, and then it is `key=value` with neither part holding `=` |
| BackupCodec.ParsePairs | src/lib.rs:204-209 | every accepted line's pair is kept and every kept pair comes from an accepted line; with no accepted line nothing is kept |
| BackupCodec.EntryLine | src/lib.rs:182 | a `key=value` line for a plain key and a clean value is one line that parses back to that key and value |
| BackupCodec.ParseSerialised | src/lib.rs:204-208 | parsing the backup text of two values without `=`, newline or final carriage return gives back `[("user.name", n), ("user.email", e)]`, each pair present only when its value was set |
| BackupCodec.ParseTwoEntries | src/lib.rs:204-208 | the same round trip for any two plain keys |
| BackupCodec.BackupKey | src/lib.rs:181-186 | one read-and-write step: succeeds exactly when the read launches; then it appends the key's line when the key is set; it changes nothing else |
| BackupCodec.BackupKeys | src/lib.rs:181-186 | both steps on an empty file: the file is always a prefix of the two lines, and the two lines in order on success |
| BackupCodec.BackupConfig | src/lib.rs:178-189 | an uncreatable path is `IoError` with nothing changed; otherwise only that file changes, it is truncated first, it always holds a prefix of the `user.name` then `user.email` lines, and on success exactly those lines; success exactly when both reads launch |
| BackupCodec.ApplyPairs | src/lib.rs:204-209 | each pair is passed to `configure_git`; success exactly when every pair's two commands launch; files and profiles untouched |
| BackupCodec.ApplyFromLine | src/lib.rs:204-208 | handling one line of the restore loop: a line that does not split into exactly two parts is passed over; one that does runs `configure_git` with its two parts, and the rest of the lines run only if that succeeds |
| BackupCodec.ApplyStopsAtFirstError | src/lib.rs:207 | once a pair fails, the result is that of the pairs up to it: nothing after it runs |
| BackupCodec.RestoreConfig | src/lib.rs:199-212 | a missing or unreadable file is `IoError` with nothing changed; otherwise success exactly when every pair parsed from the file launches; files and profiles untouched |
| BackupCodec.RestoreSkipsMalformedLines | src/lib.rs:204-209 | a file none of whose lines holds exactly one `=` restores nothing and succeeds |
| BackupCodec.BackedUpPairs | src/lib.rs:178-189 | with working git, a backup of two set, clean values succeeds and a later read of that file parses to the two pairs |
| BackupCodec.ParseBothSet | src/lib.rs:204-208 | a backup holding both values parses to the `user.name` pair and then the `user.email` pair |
| BackupCodec.ApplyTwo | src/lib.rs:204-209 | two accepted lines whose commands launch are two `configure_git` calls in file order and nothing more |
| BackupCodec.BackupThenRestoreAsWritten | src/lib.rs:315-328 | as written, backup then restore leaves `user.name` holding the text `user.email` and `user.email` holding the backed-up email |
| BackupCodec.ApplyPairsFixed | src/lib.rs:207 | corrected apply loop: one `git config --global key value` per pair; success exactly when each launches |
| BackupCodec.RestoreConfigFixed | src/lib.rs:199-212 | corrected restore: a missing or unreadable file is `IoError` with nothing changed; files and profiles untouched |
| BackupCodec.BackupThenRestoreFixed | src/lib.rs:315-328 | with the corrected restore, backup then restore gives back both values that were read at backup time, whatever the configuration was in between |
| BackupCodec.RestoreFixedOfTwo | src/lib.rs:199-212 | the corrected restore of a file holding two pairs for distinct keys sets both, so each reads back as restored |
| Installer.RunCommand | src/lib.rs:255-270 | success exactly when the command launches and exits successfully; a launch failure names the program; an unsuccessful exit is `CommandFailed` |
| Installer.IsGitInstalled | src/lib.rs:28-39 | `git --version` that does not launch is `NotFound`; otherwise the answer is its exit status; `Ok(true)` exactly when it succeeds |
| Installer.Decide | src/lib.rs:47-73 | the decision table: macOS installs with `brew install git` exactly when `brew` launches and otherwise names Homebrew; Linux always installs, with pacman exactly when `pacman -V` launches and with apt-get otherwise; Windows installs exactly when Chocolatey or Winget launches, preferring Chocolatey, and otherwise names both; any other OS is refused with "OS not supported" |
| Installer.Probes | src/lib.rs:47-73 | the probes spawned before deciding: `brew --version` on macOS, `pacman -V` on Linux, `choco --version` on Windows followed by `winget --version` exactly when Chocolatey does not launch, and none on any other OS |
| Installer.InstallGit | src/lib.rs:46-74 | spawns the probes and then the decided installer, and nothing else; a refusal returns its message; success exactly when an installer is chosen and it launches and exits successfully; no configuration, profile or file changes |
| Installer.MacWithoutBrewOnlyProbes | src/lib.rs:47-53 | on macOS without Homebrew only the probe runs and the error names Homebrew |
| Installer.MacWithBrewInstalls | src/lib.rs:47-53 | on macOS with Homebrew, `install_git` is `run_command("brew", ["install", "git"])` after the probe |
| Installer.LinuxAlwaysInstalls | src/lib.rs:54-59 | on Linux exactly one installer runs after the probe: pacman's when pacman launches, apt-get's otherwise |
| Installer.WindowsPrefersChocolatey | src/lib.rs:60-70 | on Windows with Chocolatey, `install_git` is `choco install git -y` after one probe and winget is never used; with neither, both are probed and the error names both |
| Installer.WindowsFallsBackToWinget | src/lib.rs:60-70 | on Windows without Chocolatey but with Winget, `install_git` is the Winget install after both probes |
| Installer.OtherOsRefused | src/lib.rs:71-73 | any other OS is refused with "OS not supported" and nothing is spawned |
| Library.Host.Spawn | src/lib.rs:86-99 | spawning on the host updates its fields as `Environment.Spawn` describes |
| Library.Host.RunCommand | src/lib.rs:255-270 | result and new state are those of `Installer.RunCommand` |
| Library.Host.IsGitInstalled | src/lib.rs:28-39 | result and new state are those of `Installer.IsGitInstalled` |
| Library.Host.InstallGit | src/lib.rs:46-74 | the nested probes and installers give the result and state of `Installer.InstallGit` |
| Library.Host.ConfigureGit | src/lib.rs:85-107 | the two ordered writes give the result and state of `ConfigBridge.ConfigureGit` |
| Library.Host.GetGitConfig | src/lib.rs:118-132 | result and new state are those of `ConfigBridge.GetGitConfig` |
| Library.Host.LoadProfiles | src/lib.rs:219-229 | changes nothing and returns `ProfileStore.LoadProfiles` of the host; a corrupt file is an error |
| Library.Host.SaveProfiles | src/lib.rs:239-244 | result and new state are those of `ProfileStore.SaveProfiles` |
| Library.Host.CreateProfile | src/lib.rs:144-151 | inserting into the loaded map and saving gives the result and state of `ProfileStore.CreateProfile` |
| Library.Host.UseProfile | src/lib.rs:161-168 | result and new state are those of `ProfileStore.UseProfile` |
| Library.Host.BackupKey | src/lib.rs:181-186 | result and new state are those of `BackupCodec.BackupKey` |
| Library.Host.WriteEntry | src/lib.rs:182 | `writeln!` appends the key's line to the file when a value was read, and changes nothing otherwise |
| Library.Host.BackupConfig | src/lib.rs:178-189 | truncating and then appending gives the result and state of `BackupCodec.BackupConfig` |
| Library.Host.RestoreConfig | src/lib.rs:199-212 | the loop over lines with early exit gives the result and state of `BackupCodec.RestoreConfig`; its invariant is that the rest of the loop is `ApplyPairs` of the remaining lines |
| Library.Host.RestoreLine | src/lib.rs:205-208 | one line of the restore loop: exactly two parts run `configure_git` with them, any other line changes nothing and is not an error |
| Cli.ScanFrom | src/main.rs:13-110 | the scan only appends actions, at most one per remaining argument; a slot that holds a value keeps one; past the end nothing changes |
| Cli.ScanArgs | src/main.rs:13-14 | the program name is skipped: with no further arguments there are no slots and no actions |
| Cli.Exec | src/main.rs:70-104 | an immediate action never touches the profile file or the backup files and only adds to the spawn log; `--config` without both values does nothing, and with both it is `configure_git` of them; `--show-config` reads `user.name` then `user.email` and changes nothing else; `--install` spawns `git --version` first and never changes the configuration |
| Cli.ExecAll | src/main.rs:14-110 | the immediate actions together never touch the profile file or the backup files |
| Cli.Dispatch | src/main.rs:112-145 | the profile step, then the backup, then the restore (the order `DispatchOrder` states); with no profile, backup or restore option nothing happens; the profile file changes only when a profile, a name and an email were all given; files change only when a backup path was given |
| Cli.DispatchOrder | src/main.rs:112-145 | the profile step runs first, then `backup_config` when a backup path was given, then the restore step; with only a restore path, `restore_config` runs after the profile step |
| Cli.UseProfileThenBackup | src/main.rs:113-136 | with a known profile, no name and email pair, and a backup path, the backup is taken after the switch, so with working git the file holds that profile's name and email |
| Cli.ProfileStep | src/main.rs:113-127 | no profile name does nothing; with a profile name it is `create_profile` when a name and an email were both given and `use_profile` otherwise; the profile file changes only on the create branch; files never change |
| Cli.BackupStep | src/main.rs:130-136 | no backup path does nothing; a backup path runs `backup_config` on it; profiles never change |
| Cli.RestoreStep | src/main.rs:139-145 | no restore path does nothing; a restore path runs `restore_config` on it; profiles and files never change |
| Cli.RunSpec | src/main.rs:4-146 | a run that stops at an option without a value never touches the profile file or the backup files |
| Cli.Run | src/main.rs:4-146 | the loop, then the dispatch unless the loop stopped early, ends in the state `RunSpec` describes and reports whether the scan ran to the end |
| Cli.ScanLoop | src/main.rs:7-110 | the loop with five slots and a moving cursor runs the immediate actions of `ScanArgs` in order, returns its slots, and stops early exactly when `ScanArgs` aborts |
| Cli.Act | src/main.rs:70-104 | one immediate action on the host extends the actions already run by exactly that action |
| Cli.AfterLoop | src/main.rs:112-145 | create or use, then backup, then restore, as `Dispatch` describes |
| Cli.ExecAllSnoc | src/main.rs:14-110 | running one more immediate action after a list of them is running the longer list |
| Cli.ScanShift | src/main.rs:14-110 | the scan from a position depends only on the arguments from that position on |
| Cli.UnknownArgumentIgnored | src/main.rs:105-109 | an unknown argument in option position can be deleted without changing the scan |
| Cli.FlagTable | src/main.rs:15-107 | the nine options and the slot or action each one stands for |
| Cli.ScanPrefix | src/main.rs:14-110 | a scan that does not abort stops exactly at the end of its arguments, so a longer line continues from what it collected |
| Cli.ScanArgsAppend | src/main.rs:14-110 | appending arguments to a command line whose scan does not abort continues that scan from its slots and actions |
| Cli.ValueFillsSlot | src/main.rs:16-69 | after any command line that does not abort, a valued option and its value set exactly that option's slot and take no action |
| Cli.ConfigRecordsSlots | src/main.rs:81-91 | after any command line that does not abort, `--config` appends one action holding the name and email collected so far |
| Cli.TwoValuedOptions | src/main.rs:16-69 | after any command line that does not abort, two valued options with their values set their slots in order and take no action |
| Cli.SameSlotLastWins | src/main.rs:16-69 | after any command line that does not abort, two options writing the same slot leave the later value there; the earlier one is lost and nothing else changes |
| Cli.LaterProfileWins | src/main.rs:34-51 | of any two options for the profile slot, the later value is kept |
| Cli.CreateAndUseShareSlot | src/main.rs:34-51 | `--create-profile` and `--use-profile` write one slot, so the later one wins whichever flag it is |
| Cli.ConfigSeesEarlierOptions | src/main.rs:81-91 | the action `--config` records holds the name and email given before it, whatever arguments follow |
| Cli.ImmediateFlagRecorded | src/main.rs:70-104 | after any command line that does not abort, `--install` or `--show-config` appends its own action and leaves the slots alone |
| Cli.ProfileRun | src/main.rs:112-127 | for any command line that does not abort and has a profile name but no backup or restore path, the run ends with `create_profile` when a name and an email were both given and with `use_profile` otherwise |
| Cli.BackupBeforeRestore | src/main.rs:129-145 | after any command line without a profile name, `--backup p` and `--restore p` back up first and then restore from what was written, in either order on the command line |
| Cli.DispatchBackupRestore | src/main.rs:129-145 | with no profile name and both paths equal, the dispatch is the backup followed by the restore |
| Cli.BackupRestoreRunAsWritten | src/main.rs:129-145 | as written, `--backup p --restore p` with working git leaves the text `user.email` in `user.name` and the email that was backed up in `user.email` |
| Cli.MissingValueAborts | src/main.rs:16-69 | a valued option as the last argument aborts the scan: the actions before it have run, and no profile, backup or restore step runs |
| Cli.UseProfileFlagCanCreate | src/main.rs:113-126 | `--use-profile p --user n --email e` creates profile `p` instead of switching to it |
| Cli.ScanUseUserEmail | src/main.rs:16-51 | the scan of `--use-profile p --user n --email e` fills the profile, name and email slots and takes no action |
| Cli.ScanProfileNameEmail | src/main.rs:16-51 | three valued options for the profile, the name and the email fill those three slots and nothing else |
| Cli.InstallOnlyWhenMissing | src/main.rs:70-80 | `--install` spawns only the probe when git answers successfully; otherwise, including when the probe does not launch, `install_git` runs |

## Left out

- Spawning processes is not modelled. Whether each command launches and whether it exits successfully are inputs (`Env.launches`, `Env.exitsOk`), fixed for one run. An installation therefore does not change what later probes see.
- The home directory, reads and writes of the profile file, and `File::create` are modelled as flags in `Env`. A missing home directory is one of these inputs.
- The TOML codec is not modelled. The profile file holds a map or is `Corrupt`.
- `ProfileStore.SaveProfiles`: does not model the "Failed to serialize profiles" error, because serialising a map of strings is modelled as always succeeding.
- `ProfileStore.SaveProfiles`: a failed save changes nothing only in the model. `fs::write` truncates the file before it writes, so a write that fails after that (a full disk, an I/O error) leaves `~/.git_profiles.toml` empty or partial in the program, and an empty file then loads as no profiles at all. The model has only the `Env.profileWritable` flag, which fails before anything is written.
- `ProfileStore.CreateProfile`: for the same reason, its "a failed save leaves the world as it was" holds only for a save that fails before the file is truncated.
- `env::args()` panics on an argument that is not valid Unicode. Arguments are `seq<string>`, so this cannot be expressed.
- `String::from_utf8_lossy` is not modelled: the output of a command is already a string.
- Backup files hold strings. A file that exists but cannot be opened or read, for example one that is not UTF-8, is the input `Env.readable`.
- Backup files and the profile file are kept apart: `World.files` and `World.profileFile` are separate fields. A backup or restore whose path is the profile file (`~/.git_profiles.toml`) therefore does not see or overwrite the profiles.
- `BackupCodec.BackupConfig`: does not model a failing `writeln!` after the file was created. Every write to a created file succeeds.
- `Installer.RunCommand`: the message for an unsuccessful exit is only its fixed start. The formatted exit status that follows is not modelled.
- The text printed by `println!` and `eprintln!` is not modelled, so a run has no printed output. `Cli.Run` reports only whether the scan ran to the end.
- `cfg!(target_os)` is the input `Env.os`.
- Two processes rewriting the profile file at once are not modelled.
- The unit tests at `src/lib.rs:272-333` need a real git. They appear only as the lemmas they state (`ConfigureThenGet`, `CreateThenUse`, the backup round trips).
- In several places the code differs from its documentation, and the model follows the code:
  - An unknown profile is `CommandFailed("Profile not found")`, not `NotFound`.
  - A malformed profile file is `CommandFailed("Failed to parse profile file")`, not a parse error of its own.
  - `configure_git` fails only when a command does not launch. An unsuccessful exit status is not a failure.
  - The package-manager probes of `install_git` look only at whether the probe launches, not at its exit status.
- `Library.Host` and `Cli.Run` restore as the code is written. The corrected restore is `BackupCodec.RestoreConfigFixed`, and it is proved on its own.

## Findings

| source | as written | input that shows it | evidently intended | confidence | as-written member | corrected member |
|---|---|---|---|---|---|---|
| src/lib.rs:207 | each backup line `k=v` is applied as `configure_git(k, v)`, which sets `user.name` to `k` and `user.email` to `v` | configuration `user.name=Backup User`, `user.email=backup@example.com`; back up, then restore (the test at src/lib.rs:315-328) | restore sets key `k` to value `v`, so both values come back | high (not executed) | BackupCodec.BackupThenRestoreAsWritten | BackupCodec.BackupThenRestoreFixed |
