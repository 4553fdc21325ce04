/** The profile store: `load_profiles`, `save_profiles`, `create_profile` and
    `use_profile`. The TOML document in `~/.git_profiles.toml` is seen only
    as the map it encodes, or as corrupt. */
module ProfileStore {
  import opened Types
  import opened Environment
  import ConfigBridge

  const HomeMissing := "Cannot find home directory"
  const ParseFailed := "Failed to parse profile file"
  const ProfileNotFound := "Profile not found"

  /** `load_profiles`: a missing file is an empty store; a file that exists
      must be read and parsed, and a failure of either is an error. */
  function LoadProfiles(env: Env, w: World): (r: Result<map<string, Profile>>)
    ensures !env.homeFound ==> r == Err(CommandFailed(HomeMissing))
    ensures env.homeFound && w.profileFile == Absent ==> r == Ok(map[])
    ensures w.profileFile == Corrupt ==> r.Err?
    ensures w.profileFile == Corrupt && env.homeFound && env.profileReadable ==> r == Err(CommandFailed(ParseFailed))
    ensures r.Ok? <==> env.homeFound && (w.profileFile.Absent? || (w.profileFile.Stored? && env.profileReadable))
    ensures r.Ok? && w.profileFile.Stored? ==> r.value == w.profileFile.profiles
  {
    if !env.homeFound then Err(CommandFailed(HomeMissing))
    else if w.profileFile.Absent? then Ok(map[])
    else if !env.profileReadable then Err(IoError)
    else match w.profileFile
      case Corrupt => Err(CommandFailed(ParseFailed))
      case Stored(m) => Ok(m)
  }

  /** `save_profiles(m)`: overwrite the whole file with `m`, or change nothing. */
  function SaveProfiles(env: Env, w: World, m: map<string, Profile>): (r: (Result<()>, World))
    ensures r.0.Ok? <==> env.homeFound && env.profileWritable
    ensures r.0.Ok? ==> r.1 == w.(profileFile := Stored(m))
    ensures r.0.Err? ==> r.1 == w
  {
    if !env.homeFound then (Err(CommandFailed(HomeMissing)), w)
    else if !env.profileWritable then (Err(IoError), w)
    else (Ok(()), w.(profileFile := Stored(m)))
  }

  /** `create_profile(p, name, email)`: load, insert or overwrite the entry
      under `p`, save. A failed load writes nothing; a successful create
      leaves every other entry as it was and adds at most one entry. */
  function CreateProfile(env: Env, w: World, profileName: string, name: string, email: string): (r: (Result<()>, World))
    ensures r.1.config == w.config && r.1.files == w.files && r.1.log == w.log
    ensures LoadProfiles(env, w).Err? ==> r == (Err(LoadProfiles(env, w).error), w)
    ensures r.0.Err? ==> r.1 == w
    ensures r.0.Ok? <==> LoadProfiles(env, w).Ok? && env.homeFound && env.profileWritable
    ensures r.0.Ok? ==>
              var before := LoadProfiles(env, w).value;
              && r.1.profileFile.Stored?
              && var after := r.1.profileFile.profiles;
              && profileName in after && after[profileName] == Profile(name, email)
              && after.Keys == before.Keys + {profileName}
              && (forall q :: q in before && q != profileName ==> after[q] == before[q])
              && |after| <= |before| + 1
              && (profileName in before ==> |after| == |before|)
  {
    match LoadProfiles(env, w)
    case Err(e) => (Err(e), w)
    case Ok(profiles) =>
      var updated := profiles[profileName := Profile(name, email)];
      SaveProfiles(env, w, updated)
  }

  /** `use_profile(p)`: load, look `p` up, and hand its name and email to
      `configure_git`. An unknown name is reported as `CommandFailed`, not
      `NotFound`, and changes nothing. */
  function UseProfile(env: Env, w: World, profileName: string): (r: (Result<()>, World))
    ensures LoadProfiles(env, w).Err? ==> r == (Err(LoadProfiles(env, w).error), w)
    ensures LoadProfiles(env, w).Ok? && profileName !in LoadProfiles(env, w).value ==>
              r == (Err(CommandFailed(ProfileNotFound)), w)
    ensures LoadProfiles(env, w).Ok? && profileName in LoadProfiles(env, w).value ==>
              var p := LoadProfiles(env, w).value[profileName];
              r == ConfigBridge.ConfigureGit(env, w, p.name, p.email)
    ensures r.1.profileFile == w.profileFile && r.1.files == w.files
  {
    match LoadProfiles(env, w)
    case Err(e) => (Err(e), w)
    case Ok(profiles) =>
      if profileName in profiles then
        ConfigBridge.ConfigureGit(env, w, profiles[profileName].name, profiles[profileName].email)
      else (Err(CommandFailed(ProfileNotFound)), w)
  }

  /** Creating a profile and then using it sets git's `user.name` and
      `user.email` to the profile's fields. */
  lemma CreateThenUse(env: Env, w: World, profileName: string, name: string, email: string)
    requires CreateProfile(env, w, profileName, name, email).0.Ok?
    requires env.profileReadable
    requires ConfigBridge.ConfigureTakesEffect(env, name, email)
    ensures var w1 := CreateProfile(env, w, profileName, name, email).1;
      var (r, w2) := UseProfile(env, w1, profileName);
      && r == Ok(())
      && w2.config == w.config[ConfigBridge.NameKey := name][ConfigBridge.EmailKey := email]
      && w2.profileFile == w1.profileFile
  {
    var w1 := CreateProfile(env, w, profileName, name, email).1;
    assert LoadProfiles(env, w1) == Ok(w1.profileFile.profiles);
  }

  /** Starting from no profile file, creating the same profile twice leaves
      exactly one entry, holding the second identity. */
  lemma RecreateOverwrites(env: Env, w: World, profileName: string, p1: Profile, p2: Profile)
    requires w.profileFile == Absent
    requires env.homeFound && env.profileReadable && env.profileWritable
    ensures var w1 := CreateProfile(env, w, profileName, p1.name, p1.email).1;
      var w2 := CreateProfile(env, w1, profileName, p2.name, p2.email).1;
      w2.profileFile == Stored(map[profileName := p2])
  {
    var w1 := CreateProfile(env, w, profileName, p1.name, p1.email).1;
    assert w1.profileFile.profiles.Keys == {profileName};
    var w2 := CreateProfile(env, w1, profileName, p2.name, p2.email).1;
    assert w2.profileFile.profiles == map[profileName := p2];
  }
}
