/** `configure_git` and `get_git_config`: writing and reading git's global
    `user.name` and `user.email` through `git config --global`. */
module ConfigBridge {
  import opened Types
  import opened Environment
  import opened Text

  const NameKey := "user.name"
  const EmailKey := "user.email"

  const SetNameFailed := "Failed to set Git user.name"
  const SetEmailFailed := "Failed to set Git user.email"
  const GetFailed := "Failed to retrieve Git configuration"

  /** What `get_git_config(key)` reports once git has launched: the stored
      value with surrounding whitespace removed, or nothing when the key is
      unset or its value is only whitespace. */
  function ConfigValue(config: map<string, string>, key: string): (v: Option<string>)
    ensures v.Some? ==> v.value != [] && IsTrimmed(v.value)
    ensures v.None? <==> key !in config || AllWhitespace(config[key])
    ensures key in config && IsTrimmed(config[key]) && config[key] != [] ==> v == Some(config[key])
  {
    if key in config && Trim(config[key]) != [] then Some(Trim(config[key])) else None
  }

  /** `get_git_config(key)`: run `git config --global <key>`, trim its stdout,
      and map an empty result to `None`; only a launch failure is an error. */
  function GetGitConfig(env: Env, w: World, key: string): (r: (Result<Option<string>>, World))
    ensures r.1 == w.(log := w.log + [GitGet(key)])
    ensures env.launches(GitGet(key)) ==> r.0 == Ok(ConfigValue(w.config, key))
    ensures !env.launches(GitGet(key)) ==> r.0 == Err(CommandFailed(GetFailed))
    ensures r.0 == Ok(None) <==> env.launches(GitGet(key)) && (key !in w.config || AllWhitespace(w.config[key]))
  {
    var (out, w') := Spawn(env, w, GitGet(key));
    match out
    case LaunchFailed => (Err(CommandFailed(GetFailed)), w')
    case Exited(_, stdout) =>
      assert key in w.config ==> Trim(stdout) == Trim(w.config[key]) by {
        if key in w.config {
          assert AllWhitespace("\n");
          TrimDropsTrailingWhitespace(w.config[key], "\n");
        }
      }
      var value := Trim(stdout);
      if value == [] then (Ok(None), w') else (Ok(Some(value)), w')
  }

  /** The effect on git's global configuration of one `git config --global k v`
      that was launched: it takes effect only when the command succeeds. */
  function Written(env: Env, config: map<string, string>, key: string, value: string): map<string, string> {
    if Succeeds(env, GitSet(key, value)) then config[key := value] else config
  }

  /** Both commands of `configure_git(name, email)` launch. */
  predicate ConfigureLaunches(env: Env, name: string, email: string) {
    env.launches(GitSet(NameKey, name)) && env.launches(GitSet(EmailKey, email))
  }

  /** `configure_git(name, email)`: set `user.name`, then `user.email`. A
      launch failure of the first command stops before the second; the exit
      status of either command is ignored. */
  function ConfigureGit(env: Env, w: World, name: string, email: string): (r: (Result<()>, World))
    ensures r.1.profileFile == w.profileFile && r.1.files == w.files
    ensures r.0.Ok? <==> ConfigureLaunches(env, name, email)
    ensures !env.launches(GitSet(NameKey, name)) ==>
              r == (Err(CommandFailed(SetNameFailed)), w.(log := w.log + [GitSet(NameKey, name)]))
    ensures env.launches(GitSet(NameKey, name)) ==>
              && r.1.log == w.log + [GitSet(NameKey, name), GitSet(EmailKey, email)]
              && r.1.config == Written(env, Written(env, w.config, NameKey, name), EmailKey, email)
              && (r.0.Err? ==> r.0.error == CommandFailed(SetEmailFailed))
  {
    var (first, w1) := Spawn(env, w, GitSet(NameKey, name));
    if first.LaunchFailed? then (Err(CommandFailed(SetNameFailed)), w1)
    else
      var (second, w2) := Spawn(env, w1, GitSet(EmailKey, email));
      if second.LaunchFailed? then (Err(CommandFailed(SetEmailFailed)), w2)
      else (Ok(()), w2)
  }

  /** Both writes of `configure_git` launch and succeed. */
  predicate ConfigureTakesEffect(env: Env, name: string, email: string) {
    Succeeds(env, GitSet(NameKey, name)) && Succeeds(env, GitSet(EmailKey, email))
  }

  /** Configuring and then reading back gives the values that were set
      (the expectation of the library's own tests), provided they carry no
      surrounding whitespace and are not empty. */
  lemma ConfigureThenGet(env: Env, w: World, name: string, email: string)
    requires ConfigureTakesEffect(env, name, email)
    requires env.launches(GitGet(NameKey)) && env.launches(GitGet(EmailKey))
    requires name != [] && IsTrimmed(name) && email != [] && IsTrimmed(email)
    ensures var w1 := ConfigureGit(env, w, name, email);
      && w1.0 == Ok(())
      && GetGitConfig(env, w1.1, NameKey).0 == Ok(Some(name))
      && GetGitConfig(env, w1.1, EmailKey).0 == Ok(Some(email))
  {
    var c := ConfigureGit(env, w, name, email).1.config;
    assert NameKey != EmailKey;
    assert c[NameKey] == name && c[EmailKey] == email;
  }
}
