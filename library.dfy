/** The library as the program runs it: one host whose git configuration,
    profile file, other files and spawn log are updated in place. Each
    method performs the steps of one library function in the source's order
    and is proved to end in the state, with the result, that the functional
    model of that library function describes. */
module Library {
  import opened Types
  import opened Environment
  import Text
  import ConfigBridge
  import ProfileStore
  import BackupCodec
  import Installer

  class Host {
    /** What this host lets the library observe; it never changes. */
    const env: Env
    var config: map<string, string>
    var profileFile: ProfileFile
    var files: map<string, string>
    var log: seq<Cmd>

    /** The host's mutable state as a value. */
    function State(): World
      reads this
    {
      World(config, profileFile, files, log)
    }

    constructor(env: Env, w: World)
      ensures this.env == env && State() == w
    {
      this.env := env;
      config := w.config;
      profileFile := w.profileFile;
      files := w.files;
      log := w.log;
    }

    /** `Command::new(..).args(..).output()`. */
    method Spawn(c: Cmd) returns (out: Output)
      modifies this
      ensures (out, State()) == Environment.Spawn(env, old(State()), c)
    {
      log := log + [c];
      if !env.launches(c) {
        return LaunchFailed;
      }
      match c {
        case GitSet(k, v) =>
          if env.exitsOk(c) {
            config := config[k := v];
          }
          out := Exited(env.exitsOk(c), "");
        case GitGet(k) =>
          out := Exited(env.exitsOk(c), GetOutput(config, k));
        case _ =>
          out := Exited(env.exitsOk(c), "");
      }
    }

    /** `run_command`. */
    method RunCommand(c: Cmd) returns (r: Result<()>)
      modifies this
      ensures (r, State()) == Installer.RunCommand(env, old(State()), c)
    {
      var out := Spawn(c);
      if out.LaunchFailed? {
        return Err(CommandFailed(Installer.RunFailedPrefix + Program(c)));
      }
      if out.success {
        r := Ok(());
      } else {
        r := Err(CommandFailed(Installer.StatusFailedPrefix));
      }
    }

    /** `is_git_installed`. */
    method IsGitInstalled() returns (r: Result<bool>)
      modifies this
      ensures (r, State()) == Installer.IsGitInstalled(env, old(State()))
    {
      var out := Spawn(GitVersion);
      if out.LaunchFailed? {
        return Err(NotFound);
      }
      r := Ok(out.success);
    }

    /** `install_git`. */
    method InstallGit() returns (r: Result<()>)
      modifies this
      ensures (r, State()) == Installer.InstallGit(env, old(State()))
    {
      match env.os {
        case MacOs =>
          var probe := Spawn(BrewVersion);
          if probe.LaunchFailed? {
            return Err(CommandFailed(Installer.HomebrewMissing));
          }
          r := RunCommand(BrewInstallGit);
        case Linux =>
          var probe := Spawn(PacmanVersion);
          if !probe.LaunchFailed? {
            r := RunCommand(PacmanInstallGit);
          } else {
            r := RunCommand(AptInstallGit);
          }
        case Windows =>
          var choco := Spawn(ChocoVersion);
          if !choco.LaunchFailed? {
            r := RunCommand(ChocoInstallGit);
          } else {
            var winget := Spawn(WingetVersion);
            if !winget.LaunchFailed? {
              r := RunCommand(WingetInstallGit);
            } else {
              r := Err(CommandFailed(Installer.NoWindowsManager));
            }
          }
        case OtherOs =>
          r := Err(CommandFailed(Installer.OsNotSupported));
      }
    }

    /** `configure_git`: two ordered writes to git's global configuration. */
    method ConfigureGit(name: string, email: string) returns (r: Result<()>)
      modifies this
      ensures (r, State()) == ConfigBridge.ConfigureGit(env, old(State()), name, email)
    {
      var out := Spawn(GitSet(ConfigBridge.NameKey, name));
      if out.LaunchFailed? {
        return Err(CommandFailed(ConfigBridge.SetNameFailed));
      }
      out := Spawn(GitSet(ConfigBridge.EmailKey, email));
      if out.LaunchFailed? {
        return Err(CommandFailed(ConfigBridge.SetEmailFailed));
      }
      r := Ok(());
    }

    /** `get_git_config`. */
    method GetGitConfig(key: string) returns (r: Result<Option<string>>)
      modifies this
      ensures (r, State()) == ConfigBridge.GetGitConfig(env, old(State()), key)
    {
      var out := Spawn(GitGet(key));
      if out.LaunchFailed? {
        return Err(CommandFailed(ConfigBridge.GetFailed));
      }
      var value := Text.Trim(out.stdout);
      if value == [] {
        r := Ok(None);
      } else {
        r := Ok(Some(value));
      }
    }

    /** `load_profiles`: reads the profile file and changes nothing. */
    method LoadProfiles() returns (r: Result<map<string, Profile>>)
      ensures r == ProfileStore.LoadProfiles(env, State())
      ensures r.Ok? && profileFile.Stored? ==> r.value == profileFile.profiles
      ensures profileFile.Corrupt? ==> r.Err?
    {
      if !env.homeFound {
        return Err(CommandFailed(ProfileStore.HomeMissing));
      }
      if profileFile.Absent? {
        return Ok(map[]);
      }
      if !env.profileReadable {
        return Err(IoError);
      }
      match profileFile {
        case Corrupt => r := Err(CommandFailed(ProfileStore.ParseFailed));
        case Stored(m) => r := Ok(m);
      }
    }

    /** `save_profiles`. */
    method SaveProfiles(profiles: map<string, Profile>) returns (r: Result<()>)
      modifies this
      ensures (r, State()) == ProfileStore.SaveProfiles(env, old(State()), profiles)
    {
      if !env.homeFound {
        return Err(CommandFailed(ProfileStore.HomeMissing));
      }
      if !env.profileWritable {
        return Err(IoError);
      }
      profileFile := Stored(profiles);
      r := Ok(());
    }

    /** `create_profile`: load, insert into the loaded map, save. */
    method CreateProfile(profileName: string, name: string, email: string) returns (r: Result<()>)
      modifies this
      ensures (r, State()) == ProfileStore.CreateProfile(env, old(State()), profileName, name, email)
    {
      var loaded := LoadProfiles();
      if loaded.Err? {
        return Err(loaded.error);
      }
      var profiles := loaded.value;
      profiles := profiles[profileName := Profile(name, email)];
      r := SaveProfiles(profiles);
    }

    /** `use_profile`. */
    method UseProfile(profileName: string) returns (r: Result<()>)
      modifies this
      ensures (r, State()) == ProfileStore.UseProfile(env, old(State()), profileName)
    {
      var loaded := LoadProfiles();
      if loaded.Err? {
        return Err(loaded.error);
      }
      if profileName !in loaded.value {
        return Err(CommandFailed(ProfileStore.ProfileNotFound));
      }
      var profile := loaded.value[profileName];
      r := ConfigureGit(profile.name, profile.email);
    }

    /** One `get_git_config` and `writeln!` step of `backup_config`. */
    method BackupKey(path: string, key: string) returns (r: Result<()>)
      requires path in files
      modifies this
      ensures (r, State()) == BackupCodec.BackupKey(env, old(State()), path, key)
    {
      var got := GetGitConfig(key);
      if got.Err? {
        return Err(got.error);
      }
      WriteEntry(path, key, got.value);
      r := Ok(());
    }

    /** `writeln!(file, "key={}", v)` when a value was read, nothing otherwise. */
    method WriteEntry(path: string, key: string, v: Option<string>)
      requires path in files
      modifies this
      ensures State() == old(State()).(files := old(files)[path := old(files)[path] + BackupCodec.EntryText(key, v)])
    {
      if v.Some? {
        var line := BackupCodec.Entry(key, v.value) + "\n";
        files := files[path := files[path] + line];
      } else {
        assert files[path] + "" == files[path];
        assert files[path := files[path] + ""] == files;
      }
    }

    /** `backup_config`: truncate the file, then append the lines in order. */
    method BackupConfig(path: string) returns (r: Result<()>)
      modifies this
      ensures (r, State()) == BackupCodec.BackupConfig(env, old(State()), path)
    {
      if !env.creatable(path) {
        return Err(IoError);
      }
      files := files[path := ""];
      r := BackupKey(path, ConfigBridge.NameKey);
      if r.Err? {
        return;
      }
      r := BackupKey(path, ConfigBridge.EmailKey);
    }

    /** `restore_config`: read the file, then call `configure_git` for each
      line that splits into exactly two parts, stopping at the first error. */
    method RestoreConfig(path: string) returns (r: Result<()>)
      modifies this
      ensures (r, State()) == BackupCodec.RestoreConfig(env, old(State()), path)
    {
      if path !in files || !env.readable(path) {
        return Err(IoError);
      }
      var lines := Text.Lines(files[path]);
      ghost var outcome := BackupCodec.RestoreConfig(env, State(), path);
      assert outcome == BackupCodec.ApplyPairs(env, State(), BackupCodec.ParsePairs(lines[0..]));
      var j := 0;
      while j < |lines|
        invariant 0 <= j <= |lines|
        invariant outcome == BackupCodec.ApplyPairs(env, State(), BackupCodec.ParsePairs(lines[j..]))
      {
        BackupCodec.ApplyFromLine(env, State(), lines, j);
        r := RestoreLine(lines[j]);
        if r.Err? {
          return;
        }
        j := j + 1;
      }
      assert lines[j..] == [];
      r := Ok(());
    }

    /** The body of `restore_config`'s loop for one line: `configure_git`
        with the two parts when the line splits into exactly two. */
    method RestoreLine(line: string) returns (r: Result<()>)
      modifies this
      ensures var parts := Text.Split(line, '=');
        && (|parts| == 2 ==> (r, State()) == ConfigBridge.ConfigureGit(env, old(State()), parts[0], parts[1]))
        && (|parts| != 2 ==> r == Ok(()) && State() == old(State()))
    {
      var parts := Text.Split(line, '=');
      if |parts| == 2 {
        r := ConfigureGit(parts[0], parts[1]);
      } else {
        r := Ok(());
      }
    }
  }
}
