/** The command-line front end: a left-to-right scan of the arguments that
    fills five option slots and runs the immediate actions where they appear,
    followed by the profile, backup and restore steps. */
module Cli {
  import opened Types
  import opened Environment
  import ConfigBridge
  import ProfileStore
  import BackupCodec
  import Installer
  import Text
  import Library

  /** The five option slots of the front end. */
  datatype Slots = Slots(
    gitName: Option<string>,
    gitEmail: Option<string>,
    profileName: Option<string>,
    backupPath: Option<string>,
    restorePath: Option<string>)

  const NoSlots := Slots(None, None, None, None, None)

  /** Which slot a valued option writes. */
  datatype Slot = NameSlot | EmailSlot | ProfileSlot | BackupSlot | RestoreSlot

  /** What one argument in option position means. `--create-profile` and
      `--use-profile` both write the profile slot. */
  datatype Flag = Valued(slot: Slot) | InstallFlag | ConfigFlag | ShowConfigFlag | UnknownFlag

  /** The recognised options, each with what it does, in the order the
      source's `match` lists them. */
  const Options: seq<(string, Flag)> := [
    ("--user", Valued(NameSlot)),
    ("--email", Valued(EmailSlot)),
    ("--create-profile", Valued(ProfileSlot)),
    ("--use-profile", Valued(ProfileSlot)),
    ("--backup", Valued(BackupSlot)),
    ("--restore", Valued(RestoreSlot)),
    ("--install", InstallFlag),
    ("--config", ConfigFlag),
    ("--show-config", ShowConfigFlag)
  ]

  /** The first entry of `table` for `arg`, if any. */
  function Lookup(table: seq<(string, Flag)>, arg: string): Flag {
    if table == [] then UnknownFlag
    else if table[0].0 == arg then table[0].1
    else Lookup(table[1..], arg)
  }

  function Classify(arg: string): Flag {
    Lookup(Options, arg)
  }

  function Set(slots: Slots, slot: Slot, v: string): Slots {
    match slot
    case NameSlot => slots.(gitName := Some(v))
    case EmailSlot => slots.(gitEmail := Some(v))
    case ProfileSlot => slots.(profileName := Some(v))
    case BackupSlot => slots.(backupPath := Some(v))
    case RestoreSlot => slots.(restorePath := Some(v))
  }

  /** An action taken during the scan, at the position of its option;
      `--config` captures the name and email given before it. */
  datatype Action = Install | Configure(name: Option<string>, email: Option<string>) | ShowConfig

  /** The outcome of the scan: the slots, the immediate actions in order, and
      whether it stopped at a valued option without a value. */
  datatype Scan = Scan(slots: Slots, actions: seq<Action>, aborted: bool)

  /** Every slot that holds a value still holds one later. */
  predicate Keeps(before: Slots, after: Slots) {
    && (before.gitName.Some? ==> after.gitName.Some?)
    && (before.gitEmail.Some? ==> after.gitEmail.Some?)
    && (before.profileName.Some? ==> after.profileName.Some?)
    && (before.backupPath.Some? ==> after.backupPath.Some?)
    && (before.restorePath.Some? ==> after.restorePath.Some?)
  }

  /** The scan from option position `i` on. A valued option takes the next
      argument and moves two places; any other argument moves one place; an
      unknown argument is passed over. */
  function ScanFrom(args: seq<string>, i: nat, slots: Slots, acts: seq<Action>): (s: Scan)
    ensures acts <= s.actions
    ensures i < |args| ==> |s.actions| <= |acts| + |args| - i
    ensures Keeps(slots, s.slots)
    ensures i >= |args| ==> s == Scan(slots, acts, false)
    decreases |args| - i
  {
    if i >= |args| then Scan(slots, acts, false)
    else match Classify(args[i])
      case Valued(slot) =>
        if i + 1 < |args| then ScanFrom(args, i + 2, Set(slots, slot, args[i + 1]), acts)
        else Scan(slots, acts, true)
      case InstallFlag => ScanFrom(args, i + 1, slots, acts + [Install])
      case ConfigFlag => ScanFrom(args, i + 1, slots, acts + [Configure(slots.gitName, slots.gitEmail)])
      case ShowConfigFlag => ScanFrom(args, i + 1, slots, acts + [ShowConfig])
      case UnknownFlag => ScanFrom(args, i + 1, slots, acts)
  }

  /** The whole scan; the first argument is the program name and is skipped. */
  function ScanArgs(args: seq<string>): (s: Scan)
    ensures |s.actions| < |args| || s.actions == []
    ensures |args| <= 1 ==> s == Scan(NoSlots, [], false)
  {
    ScanFrom(args, 1, NoSlots, [])
  }

  /** The effect of one immediate action. `--install` installs only when the
      probe does not report git as installed; `--config` configures only when
      both values were given before it; `--show-config` reads both keys. */
  function Exec(env: Env, w: World, a: Action): (r: World)
    ensures r.profileFile == w.profileFile && r.files == w.files
    ensures w.log <= r.log
    ensures a.Configure? && (a.name.None? || a.email.None?) ==> r == w
    ensures a.Configure? && a.name.Some? && a.email.Some? ==>
              r == ConfigBridge.ConfigureGit(env, w, a.name.value, a.email.value).1
    ensures a == ShowConfig ==> r == w.(log := w.log + [GitGet(ConfigBridge.NameKey), GitGet(ConfigBridge.EmailKey)])
    ensures a == Install ==> r.config == w.config && w.log + [GitVersion] <= r.log
  {
    match a
    case Install =>
      var (probe, w1) := Installer.IsGitInstalled(env, w);
      if probe == Ok(true) then w1 else Installer.InstallGit(env, w1).1
    case Configure(name, email) =>
      if name.Some? && email.Some? then ConfigBridge.ConfigureGit(env, w, name.value, email.value).1
      else w
    case ShowConfig =>
      var w1 := ConfigBridge.GetGitConfig(env, w, ConfigBridge.NameKey).1;
      ConfigBridge.GetGitConfig(env, w1, ConfigBridge.EmailKey).1
  }

  /** The immediate actions in order. */
  function ExecAll(env: Env, w: World, acts: seq<Action>): (r: World)
    ensures r.profileFile == w.profileFile && r.files == w.files
    ensures w.log <= r.log
    decreases |acts|
  {
    if acts == [] then w
    else Exec(env, ExecAll(env, w, acts[..|acts| - 1]), acts[|acts| - 1])
  }

  /** Running one more action after a sequence of actions. */
  lemma ExecAllSnoc(env: Env, w: World, acts: seq<Action>, a: Action)
    ensures ExecAll(env, w, acts + [a]) == Exec(env, ExecAll(env, w, acts), a)
  {
    assert (acts + [a])[..|acts|] == acts;
  }

  /** The steps after the scan: the profile step, then back up, then
      restore, each only when its path was given. */
  function Dispatch(env: Env, w: World, slots: Slots): (r: World)
    ensures slots.profileName.None? && slots.backupPath.None? && slots.restorePath.None? ==> r == w
    ensures !(slots.profileName.Some? && slots.gitName.Some? && slots.gitEmail.Some?) ==> r.profileFile == w.profileFile
    ensures slots.backupPath.None? ==> r.files == w.files
  {
    var w1 := ProfileStep(env, w, slots);
    var w2 := BackupStep(env, w1, slots.backupPath);
    RestoreStep(env, w2, slots.restorePath)
  }

  /** With a profile name: create the profile when a name and an email were
      both given, otherwise switch to the named profile. */
  function ProfileStep(env: Env, w: World, slots: Slots): (r: World)
    ensures slots.profileName.None? ==> r == w
    ensures !(slots.profileName.Some? && slots.gitName.Some? && slots.gitEmail.Some?) ==> r.profileFile == w.profileFile
    ensures r.files == w.files
    ensures slots.profileName.Some? && slots.gitName.Some? && slots.gitEmail.Some? ==>
              r == ProfileStore.CreateProfile(env, w, slots.profileName.value, slots.gitName.value, slots.gitEmail.value).1
    ensures slots.profileName.Some? && (slots.gitName.None? || slots.gitEmail.None?) ==>
              r == ProfileStore.UseProfile(env, w, slots.profileName.value).1
  {
    if slots.profileName.None? then w
    else if slots.gitName.Some? && slots.gitEmail.Some? then
      ProfileStore.CreateProfile(env, w, slots.profileName.value, slots.gitName.value, slots.gitEmail.value).1
    else ProfileStore.UseProfile(env, w, slots.profileName.value).1
  }

  /** `backup_config(path)` when a backup path was given. */
  function BackupStep(env: Env, w: World, path: Option<string>): (r: World)
    ensures path.None? ==> r == w
    ensures path.Some? ==> r == BackupCodec.BackupConfig(env, w, path.value).1
    ensures r.profileFile == w.profileFile
  {
    if path.None? then w
    else
      BackupCodec.BackupConfig(env, w, path.value).1
  }

  /** `restore_config(path)` when a restore path was given. */
  function RestoreStep(env: Env, w: World, path: Option<string>): (r: World)
    ensures path.None? ==> r == w
    ensures path.Some? ==> r == BackupCodec.RestoreConfig(env, w, path.value).1
    ensures r.profileFile == w.profileFile && r.files == w.files
  {
    if path.None? then w
    else
      BackupCodec.RestoreConfig(env, w, path.value).1
  }

  /** The order of the dispatch: the profile step first, then the backup,
      then the restore. */
  lemma DispatchOrder(env: Env, w: World, slots: Slots)
    ensures slots.backupPath.Some? ==>
              Dispatch(env, w, slots)
                == RestoreStep(env, BackupCodec.BackupConfig(env, ProfileStep(env, w, slots), slots.backupPath.value).1, slots.restorePath)
    ensures slots.backupPath.None? && slots.restorePath.Some? ==>
              Dispatch(env, w, slots) == BackupCodec.RestoreConfig(env, ProfileStep(env, w, slots), slots.restorePath.value).1
  {
  }

  /** `--use-profile q --backup f`: the backup runs after the switch, so with
      working git the file holds profile `q`'s name and email. */
  lemma UseProfileThenBackup(env: Env, w: World, slots: Slots)
    requires slots.profileName.Some? && !(slots.gitName.Some? && slots.gitEmail.Some?)
    requires slots.backupPath.Some? && slots.restorePath.None?
    requires ProfileStore.LoadProfiles(env, w).Ok? && slots.profileName.value in ProfileStore.LoadProfiles(env, w).value
    requires var q := ProfileStore.LoadProfiles(env, w).value[slots.profileName.value];
      && ConfigBridge.ConfigureTakesEffect(env, q.name, q.email)
      && q.name != [] && Text.IsTrimmed(q.name) && q.email != [] && Text.IsTrimmed(q.email)
    requires env.creatable(slots.backupPath.value)
    requires env.launches(GitGet(ConfigBridge.NameKey)) && env.launches(GitGet(ConfigBridge.EmailKey))
    ensures var q := ProfileStore.LoadProfiles(env, w).value[slots.profileName.value];
      var r := Dispatch(env, w, slots);
      && slots.backupPath.value in r.files
      && r.files[slots.backupPath.value] == BackupCodec.Serialise(Some(q.name), Some(q.email))
  {
    var q := ProfileStore.LoadProfiles(env, w).value[slots.profileName.value];
    var w1 := ProfileStep(env, w, slots);
    assert w1 == ConfigBridge.ConfigureGit(env, w, q.name, q.email).1;
    assert w1.config == w.config[ConfigBridge.NameKey := q.name][ConfigBridge.EmailKey := q.email];
    assert ConfigBridge.ConfigValue(w1.config, ConfigBridge.NameKey) == Some(q.name);
    assert ConfigBridge.ConfigValue(w1.config, ConfigBridge.EmailKey) == Some(q.email);
  }

  /** One run of the program with arguments `args`. */
  function RunSpec(env: Env, w: World, args: seq<string>): (r: World)
    ensures ScanArgs(args).aborted ==> r.profileFile == w.profileFile && r.files == w.files
  {
    var s := ScanArgs(args);
    var w1 := ExecAll(env, w, s.actions);
    if s.aborted then w1 else Dispatch(env, w1, s.slots)
  }

  /** The program's entry point, on a host: the argument loop, then, unless
      it stopped at an option without a value, the dispatch. Returns whether
      the loop ran to the end. */
  method Run(host: Library.Host, args: seq<string>) returns (completed: bool)
    modifies host
    ensures completed == !ScanArgs(args).aborted
    ensures host.State() == RunSpec(host.env, old(host.State()), args)
  {
    var slots;
    slots, completed := ScanLoop(host, args);
    if completed {
      AfterLoop(host, slots);
    }
  }

  /** The argument loop: five slots and a cursor that moves by one, or by two
      past a valued option and its value; immediate actions run where they
      appear. */
  method ScanLoop(host: Library.Host, args: seq<string>) returns (slots: Slots, completed: bool)
    modifies host
    ensures completed == !ScanArgs(args).aborted
    ensures completed ==> slots == ScanArgs(args).slots
    ensures host.State() == ExecAll(host.env, old(host.State()), ScanArgs(args).actions)
  {
    ghost var w0 := host.State();
    ghost var acts: seq<Action> := [];
    slots := NoSlots;
    var i := 1;
    while i < |args|
      invariant 1 <= i
      invariant ScanFrom(args, i, slots, acts) == ScanArgs(args)
      invariant host.State() == ExecAll(host.env, w0, acts)
      decreases |args| - i
    {
      ghost var start, cur, done := i, slots, acts;
      var flag := Classify(args[i]);
      var action: Option<Action> := None;
      match flag {
        case Valued(slot) =>
          if i + 1 >= |args| {
            return slots, false;
          }
          slots := Set(slots, slot, args[i + 1]);
          i := i + 1;
        case InstallFlag => action := Some(Install);
        case ConfigFlag => action := Some(Configure(slots.gitName, slots.gitEmail));
        case ShowConfigFlag => action := Some(ShowConfig);
        case UnknownFlag =>
      }
      if action.Some? {
        Act(host, w0, acts, action.value);
        acts := acts + [action.value];
      }
      i := i + 1;
      assert ScanFrom(args, start, cur, done) == ScanFrom(args, i, slots, acts);
    }
    completed := true;
  }

  /** One immediate action on the host, after the actions `acts` ran on `w0`. */
  method Act(host: Library.Host, ghost w0: World, ghost acts: seq<Action>, a: Action)
    requires host.State() == ExecAll(host.env, w0, acts)
    modifies host
    ensures host.State() == ExecAll(host.env, w0, acts + [a])
  {
    ExecAllSnoc(host.env, w0, acts, a);
    match a {
      case Install =>
        var installed := host.IsGitInstalled();
        if installed != Ok(true) {
          var outcome := host.InstallGit();
        }
      case Configure(name, email) =>
        if name.Some? && email.Some? {
          var outcome := host.ConfigureGit(name.value, email.value);
        }
      case ShowConfig =>
        var nameValue := host.GetGitConfig(ConfigBridge.NameKey);
        var emailValue := host.GetGitConfig(ConfigBridge.EmailKey);
    }
  }

  /** The steps after the loop, in order. */
  method AfterLoop(host: Library.Host, slots: Slots)
    modifies host
    ensures host.State() == Dispatch(host.env, old(host.State()), slots)
  {
    if slots.profileName.Some? {
      if slots.gitName.Some? && slots.gitEmail.Some? {
        var created := host.CreateProfile(slots.profileName.value, slots.gitName.value, slots.gitEmail.value);
      } else {
        var used := host.UseProfile(slots.profileName.value);
      }
    }
    if slots.backupPath.Some? {
      var backedUp := host.BackupConfig(slots.backupPath.value);
    }
    if slots.restorePath.Some? {
      var restored := host.RestoreConfig(slots.restorePath.value);
    }
  }

  /** The scan from position `|pre| + j` of `pre + rest` sees only `rest`. */
  lemma {:induction false} ScanShift(pre: seq<string>, rest: seq<string>, j: nat, slots: Slots, acts: seq<Action>)
    requires j <= |rest|
    ensures ScanFrom(pre + rest, |pre| + j, slots, acts) == ScanFrom(rest, j, slots, acts)
    decreases |rest| - j
  {
    var args := pre + rest;
    if j < |rest| {
      assert args[|pre| + j] == rest[j];
      if j + 1 < |rest| {
        assert args[|pre| + j + 1] == rest[j + 1];
      }
      match Classify(rest[j]) {
        case Valued(slot) =>
          if j + 1 < |rest| {
            ScanShift(pre, rest, j + 2, Set(slots, slot, rest[j + 1]), acts);
          }
        case InstallFlag => ScanShift(pre, rest, j + 1, slots, acts + [Install]);
        case ConfigFlag => ScanShift(pre, rest, j + 1, slots, acts + [Configure(slots.gitName, slots.gitEmail)]);
        case ShowConfigFlag => ScanShift(pre, rest, j + 1, slots, acts + [ShowConfig]);
        case UnknownFlag => ScanShift(pre, rest, j + 1, slots, acts);
      }
    }
  }

  /** A scan of `pre` that ends without aborting stops exactly at the end
      of `pre`, so the scan of `pre + post` continues from there with what
      the scan of `pre` collected. */
  lemma {:induction false} ScanPrefix(pre: seq<string>, post: seq<string>, i: nat, slots: Slots, acts: seq<Action>)
    requires i <= |pre| && !ScanFrom(pre, i, slots, acts).aborted
    ensures var s := ScanFrom(pre, i, slots, acts);
      ScanFrom(pre + post, i, slots, acts) == ScanFrom(pre + post, |pre|, s.slots, s.actions)
    decreases |pre| - i
  {
    var args := pre + post;
    if i < |pre| {
      assert args[i] == pre[i];
      match Classify(pre[i]) {
        case Valued(slot) =>
          assert args[i + 1] == pre[i + 1];
          ScanPrefix(pre, post, i + 2, Set(slots, slot, pre[i + 1]), acts);
        case InstallFlag => ScanPrefix(pre, post, i + 1, slots, acts + [Install]);
        case ConfigFlag => ScanPrefix(pre, post, i + 1, slots, acts + [Configure(slots.gitName, slots.gitEmail)]);
        case ShowConfigFlag => ScanPrefix(pre, post, i + 1, slots, acts + [ShowConfig]);
        case UnknownFlag => ScanPrefix(pre, post, i + 1, slots, acts);
      }
    }
  }

  /** Appending arguments to a command line whose scan does not abort: the
      scan of the longer line goes on from the slots and actions of the
      shorter one. */
  lemma ScanArgsAppend(pre: seq<string>, post: seq<string>)
    requires |pre| >= 1 && !ScanArgs(pre).aborted
    ensures var s := ScanArgs(pre);
      ScanArgs(pre + post) == ScanFrom(post, 0, s.slots, s.actions)
  {
    var s := ScanArgs(pre);
    ScanPrefix(pre, post, 1, NoSlots, []);
    ScanShift(pre, post, 0, s.slots, s.actions);
  }

  /** A valued option followed by its value sets exactly that option's slot
      and takes no action. */
  lemma ValueFillsSlot(pre: seq<string>, f: string, v: string)
    requires |pre| >= 1 && !ScanArgs(pre).aborted && Classify(f).Valued?
    ensures var s := ScanArgs(pre);
      ScanArgs(pre + [f, v]) == Scan(Set(s.slots, Classify(f).slot, v), s.actions, false)
  {
    ScanArgsAppend(pre, [f, v]);
    assert [f, v][0] == f && [f, v][1] == v;
  }

  /** `--config` records the name and email collected so far. */
  lemma ConfigRecordsSlots(pre: seq<string>, c: string)
    requires |pre| >= 1 && !ScanArgs(pre).aborted && Classify(c) == ConfigFlag
    ensures var s := ScanArgs(pre);
      ScanArgs(pre + [c]) == Scan(s.slots, s.actions + [Configure(s.slots.gitName, s.slots.gitEmail)], false)
  {
    ScanArgsAppend(pre, [c]);
    assert [c][0] == c;
  }

  /** An unknown argument in option position can be deleted without changing
      anything: it is reported and passed over. */
  lemma UnknownArgumentIgnored(args: seq<string>, i: nat, slots: Slots, acts: seq<Action>)
    requires i < |args| && Classify(args[i]) == UnknownFlag
    ensures ScanFrom(args, i, slots, acts) == ScanFrom(args[..i] + args[i + 1..], i, slots, acts)
  {
    var rest := args[i + 1..];
    assert args == args[..i + 1] + rest;
    ScanShift(args[..i + 1], rest, 0, slots, acts);
    ScanShift(args[..i], rest, 0, slots, acts);
  }

  /** The options the front end knows, and what each means. */
  lemma FlagTable()
    ensures Classify("--user") == Valued(NameSlot)
    ensures Classify("--email") == Valued(EmailSlot)
    ensures Classify("--create-profile") == Valued(ProfileSlot)
    ensures Classify("--use-profile") == Valued(ProfileSlot)
    ensures Classify("--backup") == Valued(BackupSlot)
    ensures Classify("--restore") == Valued(RestoreSlot)
    ensures Classify("--install") == InstallFlag
    ensures Classify("--config") == ConfigFlag
    ensures Classify("--show-config") == ShowConfigFlag
  {
  }

  /** Two options that write the same slot, one after the other: the later
      value wins and the earlier one is lost. */
  lemma SameSlotLastWins(pre: seq<string>, f1: string, v1: string, f2: string, v2: string)
    requires |pre| >= 1 && !ScanArgs(pre).aborted
    requires Classify(f1).Valued? && Classify(f2) == Classify(f1)
    ensures var s := ScanArgs(pre);
      ScanArgs(pre + [f1, v1, f2, v2]) == Scan(Set(s.slots, Classify(f1).slot, v2), s.actions, false)
  {
    var slot := Classify(f1).slot;
    TwoValuedOptions(pre, f1, v1, f2, v2);
    assert Set(Set(ScanArgs(pre).slots, slot, v1), slot, v2) == Set(ScanArgs(pre).slots, slot, v2);
  }

  /** Two valued options with their values, one after the other, set their
      slots in that order and take no action. */
  lemma TwoValuedOptions(pre: seq<string>, f1: string, v1: string, f2: string, v2: string)
    requires |pre| >= 1 && !ScanArgs(pre).aborted
    requires Classify(f1).Valued? && Classify(f2).Valued?
    ensures var s := ScanArgs(pre);
      ScanArgs(pre + [f1, v1, f2, v2])
        == Scan(Set(Set(s.slots, Classify(f1).slot, v1), Classify(f2).slot, v2), s.actions, false)
  {
    ValueFillsSlot(pre, f1, v1);
    ValueFillsSlot(pre + [f1, v1], f2, v2);
    assert pre + [f1, v1] + [f2, v2] == pre + [f1, v1, f2, v2];
  }

  /** `--create-profile` and `--use-profile` write the same slot: the later
      one wins, whichever flag it is. */
  lemma CreateAndUseShareSlot(prog: string, p: string, q: string)
    ensures ScanArgs([prog, "--create-profile", p, "--use-profile", q]).slots.profileName == Some(q)
    ensures ScanArgs([prog, "--use-profile", p, "--create-profile", q]).slots.profileName == Some(q)
  {
    FlagTable();
    LaterProfileWins(prog, "--create-profile", p, "--use-profile", q);
    LaterProfileWins(prog, "--use-profile", p, "--create-profile", q);
  }

  /** Of two options for the profile slot, the later one's value is kept. */
  lemma LaterProfileWins(prog: string, f1: string, p: string, f2: string, q: string)
    requires Classify(f1) == Valued(ProfileSlot) && Classify(f2) == Valued(ProfileSlot)
    ensures ScanArgs([prog, f1, p, f2, q]).slots.profileName == Some(q)
  {
    assert ScanArgs([prog]) == Scan(NoSlots, [], false);
    assert [prog] + [f1, p, f2, q] == [prog, f1, p, f2, q];
    SameSlotLastWins([prog], f1, p, f2, q);
  }

  /** `--config` sees only the name and email given before it: the action it
      records is fixed by `pre`, whatever follows. */
  lemma ConfigSeesEarlierOptions(pre: seq<string>, c: string, post: seq<string>)
    requires |pre| >= 1 && !ScanArgs(pre).aborted && Classify(c) == ConfigFlag
    ensures var s := ScanArgs(pre);
      && |s.actions| < |ScanArgs(pre + [c] + post).actions|
      && ScanArgs(pre + [c] + post).actions[|s.actions|] == Configure(s.slots.gitName, s.slots.gitEmail)
  {
    var s := ScanArgs(pre);
    ConfigRecordsSlots(pre, c);
    ScanArgsAppend(pre + [c], post);
  }

  /** A valued option as the last argument stops the program: the actions
      scanned before it have run, and no profile, backup or restore step
      follows. */
  lemma MissingValueAborts(env: Env, w: World, pre: seq<string>, f: string)
    requires |pre| >= 1 && !ScanArgs(pre).aborted && Classify(f).Valued?
    ensures ScanArgs(pre + [f]) == Scan(ScanArgs(pre).slots, ScanArgs(pre).actions, true)
    ensures RunSpec(env, w, pre + [f]) == ExecAll(env, w, ScanArgs(pre).actions)
  {
    ScanArgsAppend(pre, [f]);
    assert [f][0] == f;
  }

  /** `--install` and `--show-config` record their action where they appear. */
  lemma ImmediateFlagRecorded(pre: seq<string>, f: string)
    requires |pre| >= 1 && !ScanArgs(pre).aborted
    requires Classify(f) == InstallFlag || Classify(f) == ShowConfigFlag
    ensures var s := ScanArgs(pre);
      ScanArgs(pre + [f]) == Scan(s.slots, s.actions + [if Classify(f) == InstallFlag then Install else ShowConfig], false)
  {
    ScanArgsAppend(pre, [f]);
    assert [f][0] == f;
  }

  /** With a profile name and no backup or restore path, the run ends with
      `create_profile` when a name and an email were both given, and with
      `use_profile` otherwise, after the immediate actions. */
  lemma ProfileRun(env: Env, w: World, args: seq<string>)
    requires !ScanArgs(args).aborted && ScanArgs(args).slots.profileName.Some?
    requires ScanArgs(args).slots.backupPath.None? && ScanArgs(args).slots.restorePath.None?
    ensures var s := ScanArgs(args);
      var w1 := ExecAll(env, w, s.actions);
      var p := s.slots.profileName.value;
      RunSpec(env, w, args)
        == if s.slots.gitName.Some? && s.slots.gitEmail.Some?
           then ProfileStore.CreateProfile(env, w1, p, s.slots.gitName.value, s.slots.gitEmail.value).1
           else ProfileStore.UseProfile(env, w1, p).1
  {
  }

  /** A backup path and a restore path: the backup runs first and the
      restore reads what it wrote, in whichever order the two options came. */
  lemma BackupBeforeRestore(env: Env, w: World, pre: seq<string>, b: string, p: string, r: string)
    requires |pre| >= 1 && !ScanArgs(pre).aborted && ScanArgs(pre).slots.profileName.None?
    requires Classify(b) == Valued(BackupSlot) && Classify(r) == Valued(RestoreSlot)
    ensures var w1 := ExecAll(env, w, ScanArgs(pre).actions);
      && RunSpec(env, w, pre + [b, p, r, p]) == BackupCodec.RestoreConfig(env, BackupCodec.BackupConfig(env, w1, p).1, p).1
      && RunSpec(env, w, pre + [r, p, b, p]) == BackupCodec.RestoreConfig(env, BackupCodec.BackupConfig(env, w1, p).1, p).1
  {
    var s := ScanArgs(pre);
    var w1 := ExecAll(env, w, s.actions);
    TwoValuedOptions(pre, b, p, r, p);
    TwoValuedOptions(pre, r, p, b, p);
    DispatchBackupRestore(env, w1, Set(Set(s.slots, BackupSlot, p), RestoreSlot, p), p);
    DispatchBackupRestore(env, w1, Set(Set(s.slots, RestoreSlot, p), BackupSlot, p), p);
  }

  /** With no profile name, the dispatch backs up to `p` and then restores
      from it. */
  lemma DispatchBackupRestore(env: Env, w: World, slots: Slots, p: string)
    requires slots.profileName.None? && slots.backupPath == Some(p) && slots.restorePath == Some(p)
    ensures Dispatch(env, w, slots) == BackupCodec.RestoreConfig(env, BackupCodec.BackupConfig(env, w, p).1, p).1
  {
  }

  /** As written, `--backup p --restore p` with working git leaves the text
      `user.email` in `user.name` and the backed-up email in `user.email`. */
  lemma BackupRestoreRunAsWritten(env: Env, w: World, pre: seq<string>, b: string, p: string, r: string)
    requires |pre| >= 1 && !ScanArgs(pre).aborted && ScanArgs(pre).slots.profileName.None?
    requires Classify(b) == Valued(BackupSlot) && Classify(r) == Valued(RestoreSlot)
    requires BackupCodec.GitConfigWorks(env) && env.creatable(p) && env.readable(p)
    requires var c := ExecAll(env, w, ScanArgs(pre).actions).config;
      && ConfigBridge.ConfigValue(c, ConfigBridge.NameKey).Some? && ConfigBridge.ConfigValue(c, ConfigBridge.EmailKey).Some?
      && BackupCodec.Clean(ConfigBridge.ConfigValue(c, ConfigBridge.NameKey))
      && BackupCodec.Clean(ConfigBridge.ConfigValue(c, ConfigBridge.EmailKey))
    ensures var c := ExecAll(env, w, ScanArgs(pre).actions).config;
      RunSpec(env, w, pre + [b, p, r, p]).config
        == c[ConfigBridge.NameKey := ConfigBridge.EmailKey][ConfigBridge.EmailKey := ConfigBridge.ConfigValue(c, ConfigBridge.EmailKey).value]
  {
    var w1 := ExecAll(env, w, ScanArgs(pre).actions);
    BackupBeforeRestore(env, w, pre, b, p, r);
    var later := BackupCodec.BackupConfig(env, w1, p).1;
    BackupCodec.BackupThenRestoreAsWritten(env, w1, p, later);
  }

  /** `--use-profile p --user n --email e` creates profile `p` rather than
      switching to it, because the name and email are present. */
  lemma UseProfileFlagCanCreate(env: Env, w: World, prog: string, p: string, n: string, e: string)
    ensures RunSpec(env, w, [prog, "--use-profile", p, "--user", n, "--email", e])
         == ProfileStore.CreateProfile(env, w, p, n, e).1
  {
    var a := [prog, "--use-profile", p, "--user", n, "--email", e];
    var slots := ScanUseUserEmail(prog, p, n, e);
    assert ExecAll(env, w, []) == w;
    assert ProfileStep(env, w, slots) == ProfileStore.CreateProfile(env, w, p, n, e).1;
  }

  /** The scan of `--use-profile p --user n --email e` fills three slots and
      takes no immediate action. */
  lemma ScanUseUserEmail(prog: string, p: string, n: string, e: string) returns (slots: Slots)
    ensures slots == Slots(Some(n), Some(e), Some(p), None, None)
    ensures ScanArgs([prog, "--use-profile", p, "--user", n, "--email", e]) == Scan(slots, [], false)
  {
    FlagTable();
    var a := [prog, "--use-profile", p, "--user", n, "--email", e];
    assert a[1] == "--use-profile" && a[3] == "--user" && a[5] == "--email";
    ScanProfileNameEmail(a);
    slots := Slots(Some(n), Some(e), Some(p), None, None);
  }

  /** Three valued options for the profile, the name and the email fill
      those slots and nothing else. */
  lemma ScanProfileNameEmail(a: seq<string>)
    requires |a| == 7
    requires Classify(a[1]) == Valued(ProfileSlot) && Classify(a[3]) == Valued(NameSlot) && Classify(a[5]) == Valued(EmailSlot)
    ensures ScanArgs(a) == Scan(Slots(Some(a[4]), Some(a[6]), Some(a[2]), None, None), [], false)
  {
    var s1 := NoSlots.(profileName := Some(a[2]));
    var s2 := s1.(gitName := Some(a[4]));
    assert ScanFrom(a, 1, NoSlots, []) == ScanFrom(a, 3, s1, []);
    assert ScanFrom(a, 3, s1, []) == ScanFrom(a, 5, s2, []);
    assert ScanFrom(a, 5, s2, []) == Scan(s2.(gitEmail := Some(a[6])), [], false);
  }

  /** `--install` when git already answers `git --version` successfully
      spawns nothing else; otherwise `install_git` runs after the probe. */
  lemma InstallOnlyWhenMissing(env: Env, w: World)
    ensures Succeeds(env, GitVersion) ==> Exec(env, w, Install).log == w.log + [GitVersion]
    ensures !Succeeds(env, GitVersion) ==>
              Exec(env, w, Install) == Installer.InstallGit(env, w.(log := w.log + [GitVersion])).1
  {
  }
}
