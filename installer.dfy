/** `is_git_installed`, `install_git` and `run_command`: probing for git and
    installing it with the package manager of the host OS. */
module Installer {
  import opened Types
  import opened Environment

  const HomebrewMissing := "Homebrew is not installed. Please install Homebrew first."
  const NoWindowsManager := "Neither Chocolatey nor Winget is installed. Please install one of them first."
  const OsNotSupported := "OS not supported"
  const RunFailedPrefix := "Failed to run command: "
  /** The start of the message for a command that exited unsuccessfully; the
      rendering of the exit status that follows it is not modelled. */
  const StatusFailedPrefix := "Command failed with status: "

  /** `run_command(cmd, args)`: a launch failure names the program, an
      unsuccessful exit is reported, only a successful exit is `Ok`. */
  function RunCommand(env: Env, w: World, c: Cmd): (r: (Result<()>, World))
    ensures r.1 == Spawn(env, w, c).1
    ensures r.0.Ok? <==> Succeeds(env, c)
    ensures !env.launches(c) ==> r.0 == Err(CommandFailed(RunFailedPrefix + Program(c)))
    ensures env.launches(c) && !env.exitsOk(c) ==> r.0 == Err(CommandFailed(StatusFailedPrefix))
  {
    var (out, w') := Spawn(env, w, c);
    match out
    case LaunchFailed => (Err(CommandFailed(RunFailedPrefix + Program(c))), w')
    case Exited(success, _) =>
      if success then (Ok(()), w') else (Err(CommandFailed(StatusFailedPrefix)), w')
  }

  /** `is_git_installed`: `git --version` that cannot be launched is
      `NotFound`; otherwise the answer is whether it exited successfully. */
  function IsGitInstalled(env: Env, w: World): (r: (Result<bool>, World))
    ensures r.1 == w.(log := w.log + [GitVersion])
    ensures r.0 == Err(NotFound) <==> !env.launches(GitVersion)
    ensures r.0 == Ok(true) <==> Succeeds(env, GitVersion)
    ensures r.0.Ok? ==> r.0.value == env.exitsOk(GitVersion)
  {
    var (out, w') := Spawn(env, w, GitVersion);
    match out
    case LaunchFailed => (Err(NotFound), w')
    case Exited(success, _) => (Ok(success), w')
  }

  /** What `install_git` settles on before it installs anything: run one
      installer command, or give up with a message. */
  datatype Decision = RunInstaller(cmd: Cmd) | Refuse(reason: string)

  /** The decision table of `install_git`, given which probe commands launch. */
  function Decide(os: Os, launches: Cmd -> bool): (d: Decision)
    ensures d.RunInstaller? ==> d.cmd in InstallerCmds(os)
    ensures os == OtherOs ==> d == Refuse(OsNotSupported)
    ensures os == MacOs ==> (d.RunInstaller? <==> launches(BrewVersion)) && (d.Refuse? ==> d.reason == HomebrewMissing)
    ensures os == Linux ==> d.RunInstaller? && (d.cmd == PacmanInstallGit <==> launches(PacmanVersion))
    ensures os == Windows ==>
              && (d.RunInstaller? <==> launches(ChocoVersion) || launches(WingetVersion))
              && (launches(ChocoVersion) ==> d.cmd == ChocoInstallGit)
              && (d.RunInstaller? && !launches(ChocoVersion) ==> d.cmd == WingetInstallGit)
              && (d.Refuse? ==> d.reason == NoWindowsManager)
  {
    match os
    case MacOs =>
      if !launches(BrewVersion) then Refuse(HomebrewMissing) else RunInstaller(BrewInstallGit)
    case Linux =>
      if launches(PacmanVersion) then RunInstaller(PacmanInstallGit) else RunInstaller(AptInstallGit)
    case Windows =>
      if launches(ChocoVersion) then RunInstaller(ChocoInstallGit)
      else if launches(WingetVersion) then RunInstaller(WingetInstallGit)
      else Refuse(NoWindowsManager)
    case OtherOs => Refuse(OsNotSupported)
  }

  /** The installer commands each OS may use. */
  function InstallerCmds(os: Os): set<Cmd> {
    match os
    case MacOs => {BrewInstallGit}
    case Linux => {PacmanInstallGit, AptInstallGit}
    case Windows => {ChocoInstallGit, WingetInstallGit}
    case OtherOs => {}
  }

  /** The probe commands `install_git` spawns, in order, before deciding. */
  function Probes(os: Os, launches: Cmd -> bool): (ps: seq<Cmd>)
    ensures |ps| <= 2
    ensures forall c :: c in ps ==> c in {BrewVersion, PacmanVersion, ChocoVersion, WingetVersion}
    ensures ps == [] <==> os == OtherOs
    ensures os == MacOs ==> ps == [BrewVersion]
    ensures os == Linux ==> ps == [PacmanVersion]
    ensures os == Windows ==> ps[0] == ChocoVersion && (|ps| == 2 <==> !launches(ChocoVersion))
    ensures |ps| == 2 ==> ps[1] == WingetVersion
  {
    match os
    case MacOs => [BrewVersion]
    case Linux => [PacmanVersion]
    case Windows => if launches(ChocoVersion) then [ChocoVersion] else [ChocoVersion, WingetVersion]
    case OtherOs => []
  }

  /** `install_git`: probe for a package manager, then run its install
      command. Whether git is already present is not checked here. */
  function InstallGit(env: Env, w: World): (r: (Result<()>, World))
    ensures r.1.config == w.config && r.1.profileFile == w.profileFile && r.1.files == w.files
    ensures var d := Decide(env.os, env.launches);
      && r.1.log == w.log + Probes(env.os, env.launches) + (if d.RunInstaller? then [d.cmd] else [])
      && (d.Refuse? ==> r.0 == Err(CommandFailed(d.reason)))
      && (d.RunInstaller? ==> r.0 == RunCommand(env, w, d.cmd).0)
    ensures r.0.Ok? <==> Decide(env.os, env.launches).RunInstaller? && Succeeds(env, Decide(env.os, env.launches).cmd)
  {
    match env.os
    case MacOs =>
      var (probe, w1) := Spawn(env, w, BrewVersion);
      if probe.LaunchFailed? then (Err(CommandFailed(HomebrewMissing)), w1)
      else RunCommand(env, w1, BrewInstallGit)
    case Linux =>
      var (probe, w1) := Spawn(env, w, PacmanVersion);
      if !probe.LaunchFailed? then RunCommand(env, w1, PacmanInstallGit)
      else RunCommand(env, w1, AptInstallGit)
    case Windows =>
      var (choco, w1) := Spawn(env, w, ChocoVersion);
      if !choco.LaunchFailed? then RunCommand(env, w1, ChocoInstallGit)
      else
        var (winget, w2) := Spawn(env, w1, WingetVersion);
        assert w2.log == w.log + [ChocoVersion, WingetVersion];
        if !winget.LaunchFailed? then RunCommand(env, w2, WingetInstallGit)
        else (Err(CommandFailed(NoWindowsManager)), w2)
    case OtherOs => (Err(CommandFailed(OsNotSupported)), w)
  }

  /** On macOS without Homebrew nothing is installed: only the probe runs. */
  lemma MacWithoutBrewOnlyProbes(env: Env, w: World)
    requires env.os == MacOs && !env.launches(BrewVersion)
    ensures InstallGit(env, w) == (Err(CommandFailed(HomebrewMissing)), w.(log := w.log + [BrewVersion]))
  {
  }

  /** On macOS with Homebrew, `brew install git` runs after the probe. */
  lemma MacWithBrewInstalls(env: Env, w: World)
    requires env.os == MacOs && env.launches(BrewVersion)
    ensures InstallGit(env, w) == RunCommand(env, w.(log := w.log + [BrewVersion]), BrewInstallGit)
  {
  }

  /** On Linux exactly one installer runs, pacman's when pacman launches and
      apt-get's otherwise. */
  lemma LinuxAlwaysInstalls(env: Env, w: World)
    requires env.os == Linux
    ensures var cmds := InstallGit(env, w).1.log[|w.log|..];
      && |cmds| == 2
      && cmds[1] == (if env.launches(PacmanVersion) then PacmanInstallGit else AptInstallGit)
  {
  }

  /** On Windows Chocolatey is preferred to Winget, and with neither the
      call fails after probing both. */
  lemma WindowsPrefersChocolatey(env: Env, w: World)
    requires env.os == Windows
    ensures env.launches(ChocoVersion) ==>
              InstallGit(env, w) == RunCommand(env, w.(log := w.log + [ChocoVersion]), ChocoInstallGit)
    ensures env.launches(ChocoVersion) ==> WingetInstallGit !in InstallGit(env, w).1.log[|w.log|..]
    ensures !env.launches(ChocoVersion) && !env.launches(WingetVersion) ==>
              InstallGit(env, w) == (Err(CommandFailed(NoWindowsManager)), w.(log := w.log + [ChocoVersion, WingetVersion]))
  {
    assert w.log + [ChocoVersion, WingetVersion] + [] == w.log + [ChocoVersion, WingetVersion];
  }

  /** On Windows without Chocolatey, Winget is used when it launches, after
      both probes. */
  lemma WindowsFallsBackToWinget(env: Env, w: World)
    requires env.os == Windows && !env.launches(ChocoVersion) && env.launches(WingetVersion)
    ensures InstallGit(env, w) == RunCommand(env, w.(log := w.log + [ChocoVersion, WingetVersion]), WingetInstallGit)
  {
  }

  /** Any other OS is refused without spawning anything. */
  lemma OtherOsRefused(env: Env, w: World)
    requires env.os == OtherOs
    ensures InstallGit(env, w) == (Err(CommandFailed(OsNotSupported)), w)
  {
  }
}
