/** The machine the library runs on, seen as data.

    `World` is everything the library changes: git's global configuration,
    the profile file in the home directory, the other files it writes and
    reads (backups), and the list of every external command it has tried to
    spawn. `Env` is everything it only observes during one run: the host OS,
    which commands can be launched, which of those exit successfully, and
    whether the home directory and the profile file can be reached. */
module Environment {
  import opened Types

  datatype Os = MacOs | Linux | Windows | OtherOs

  /** Every external command the library spawns, with its arguments. */
  datatype Cmd =
    | GitVersion                           // git --version
    | GitGet(key: string)                  // git config --global <key>
    | GitSet(key: string, value: string)   // git config --global <key> <value>
    | BrewVersion                          // brew --version
    | BrewInstallGit                       // brew install git
    | PacmanVersion                        // pacman -V
    | PacmanInstallGit                     // sudo pacman -S --noconfirm git
    | AptInstallGit                        // sudo apt-get install -y git
    | ChocoVersion                         // choco --version
    | ChocoInstallGit                      // choco install git -y
    | WingetVersion                        // winget --version
    | WingetInstallGit                     // winget install --id Git.Git --silent

  /** The program name handed to `Command::new`. */
  function Program(c: Cmd): string {
    match c
    case GitVersion | GitGet(_) | GitSet(_, _) => "git"
    case BrewVersion | BrewInstallGit => "brew"
    case PacmanVersion => "pacman"
    case PacmanInstallGit | AptInstallGit => "sudo"
    case ChocoVersion | ChocoInstallGit => "choco"
    case WingetVersion | WingetInstallGit => "winget"
  }

  /** What `Command::output()` yields: either the process could not be
      launched, or it ran and exited with some status and some stdout. */
  datatype Output = LaunchFailed | Exited(success: bool, stdout: string)

  /** The profile file `~/.git_profiles.toml`: missing, present but not a
      valid profile document, or holding a map from profile name to profile. */
  datatype ProfileFile = Absent | Corrupt | Stored(profiles: map<string, Profile>)

  datatype World = World(
    config: map<string, string>,   // git's global configuration
    profileFile: ProfileFile,      // the profile store
    files: map<string, string>,    // other files, by path
    log: seq<Cmd>)                 // every spawn attempt so far, oldest first

  datatype Env = Env(
    os: Os,
    launches: Cmd -> bool,         // `output()` returns `Ok` for this command
    exitsOk: Cmd -> bool,          // and its exit status is success
    homeFound: bool,               // `dirs::home_dir()` is `Some`
    profileReadable: bool,         // reading an existing profile file succeeds
    profileWritable: bool,         // `fs::write` of the profile file succeeds
    creatable: string -> bool,     // `File::create(path)` succeeds
    readable: string -> bool)      // `File::open` and `read_to_string` of an existing path succeed

  /** A command that launches and exits successfully. */
  predicate Succeeds(env: Env, c: Cmd) {
    env.launches(c) && env.exitsOk(c)
  }

  /** The stdout of `git config --global <key>`: the stored value and a
      newline, or nothing when the key is unset. */
  function GetOutput(config: map<string, string>, key: string): string {
    if key in config then config[key] + "\n" else ""
  }

  /** `Command::new(..).args(..).output()` for command `c`. The attempt is
      logged whether or not it launches; a successful `git config --global k v`
      stores `v` under `k`, and nothing else touches the world. */
  function Spawn(env: Env, w: World, c: Cmd): (r: (Output, World))
    ensures r.1.log == w.log + [c]
    ensures r.1.profileFile == w.profileFile && r.1.files == w.files
    ensures r.0.LaunchFailed? <==> !env.launches(c)
    ensures r.0.Exited? ==> r.0.success == env.exitsOk(c)
    ensures r.1.config == if c.GitSet? && Succeeds(env, c) then w.config[c.key := c.value] else w.config
    ensures c.GitGet? && env.launches(c) ==> r.0.stdout == GetOutput(w.config, c.key)
  {
    var w' := w.(log := w.log + [c]);
    if !env.launches(c) then (LaunchFailed, w')
    else
      match c
      case GitSet(k, v) =>
        (Exited(env.exitsOk(c), ""), if env.exitsOk(c) then w'.(config := w.config[k := v]) else w')
      case GitGet(k) =>
        (Exited(env.exitsOk(c), GetOutput(w.config, k)), w')
      case _ =>
        (Exited(env.exitsOk(c), ""), w')
  }
}
