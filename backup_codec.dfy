/** `backup_config` and `restore_config`: a snapshot of `user.name` and
    `user.email` as `key=value` lines, and the replay of such a file. The
    text format is split out as a serialiser and a parser. */
module BackupCodec {
  import opened Types
  import opened Environment
  import opened Text
  import opened ConfigBridge

  /** One backup line, without its newline. */
  function Entry(key: string, value: string): string {
    key + "=" + value
  }

  /** The text `backup_config` writes for the values it read: a `user.name`
      line when the name is set, then a `user.email` line when the email is
      set, each ended by a newline. */
  function Serialise(name: Option<string>, email: Option<string>): (text: string)
    ensures text == [] <==> name.None? && email.None?
    ensures text == [] || text[|text| - 1] == '\n'
    ensures name.Some? ==> Entry(NameKey, name.value) + "\n" <= text
    ensures email.Some? ==> var line := Entry(EmailKey, email.value) + "\n";
      |line| <= |text| && text[|text| - |line|..] == line
  {
    var head := EntryText(NameKey, name);
    var tail := EntryText(EmailKey, email);
    var text := head + tail;
    assert text[|text| - |tail|..] == tail;
    text
  }

  /** The line written for `key` when it holds `v`, or nothing when unset. */
  function EntryText(key: string, v: Option<string>): string {
    if v.Some? then Entry(key, v.value) + "\n" else ""
  }

  /** The pairs a backup of these values stands for, in file order. */
  function Pairs(name: Option<string>, email: Option<string>): seq<(string, string)> {
    (if name.Some? then [(NameKey, name.value)] else [])
    + (if email.Some? then [(EmailKey, email.value)] else [])
  }

  /** One line of a backup file: `line.split('=')` must give exactly two
      parts, that is, the line holds exactly one `=`. */
  function ParseLine(line: string): (p: Option<(string, string)>)
    ensures p.Some? <==> Count(line, '=') == 1
    ensures p.Some? ==> line == Entry(p.value.0, p.value.1) && '=' !in p.value.0 && '=' !in p.value.1
  {
    var parts := Split(line, '=');
    if |parts| == 2 then
      var k := IndexOf(line, '=');
      assert line == line[..k] + "=" + line[k + 1..];
      Some((parts[0], parts[1]))
    else None
  }

  /** The pairs of the accepted lines, in order; every other line is skipped. */
  function ParsePairs(lines: seq<string>): (pairs: seq<(string, string)>)
    ensures |pairs| <= |lines|
    ensures forall p :: p in pairs ==> Entry(p.0, p.1) in lines && '=' !in p.0 && '=' !in p.1
    ensures forall l :: l in lines && ParseLine(l).Some? ==> ParseLine(l).value in pairs
    ensures (forall l :: l in lines ==> ParseLine(l).None?) ==> pairs == []
  {
    if lines == [] then []
    else
      (match ParseLine(lines[0]) case Some(p) => [p] case None => []) + ParsePairs(lines[1..])
  }

  /** The restore parser: `content.lines()`, then `ParseLine` on each. */
  function ParseBackup(content: string): (pairs: seq<(string, string)>)
    ensures |pairs| <= |Lines(content)|
    ensures forall p :: p in pairs ==> Entry(p.0, p.1) in Lines(content) && '=' !in p.0 && '=' !in p.1
    ensures forall p :: p in pairs ==> '\n' !in p.0 && '\n' !in p.1
    ensures forall l :: l in Lines(content) && Count(l, '=') == 1 ==> ParseLine(l).value in pairs
  {
    var ls := Lines(content);
    var pairs := ParsePairs(ls);
    forall p | p in pairs
      ensures '\n' !in p.0 && '\n' !in p.1
    {
      EntryHasNoNewline(p.0, p.1, ls);
    }
    pairs
  }

  /** Key and value of a line of `lines` hold no newline. */
  lemma EntryHasNoNewline(key: string, value: string, ls: seq<string>)
    requires Entry(key, value) in ls && forall l :: l in ls ==> '\n' !in l
    ensures '\n' !in key && '\n' !in value
  {
    var e := Entry(key, value);
    assert forall i :: 0 <= i < |key| ==> e[i] == key[i];
    assert forall i :: 0 <= i < |value| ==> e[|key| + 1 + i] == value[i];
  }

  /** A value that survives the format: no `=`, no newline, no final carriage return. */
  predicate Clean(v: Option<string>) {
    v.Some? ==> '=' !in v.value && '\n' !in v.value && !EndsWithCr(v.value)
  }

  /** A key of the format holds neither `=` nor a newline. */
  lemma KeyIsPlain(key: string)
    requires key == NameKey || key == EmailKey
    ensures '=' !in key && '\n' !in key && key != []
  {
  }

  /** A serialised entry is one line that parses back to its key and value. */
  lemma EntryLine(key: string, value: string)
    requires '=' !in key && '\n' !in key && key != []
    requires Clean(Some(value))
    ensures '\n' !in Entry(key, value) && !EndsWithCr(Entry(key, value))
    ensures ParseLine(Entry(key, value)) == Some((key, value))
  {
    var e := Entry(key, value);
    assert e == key + ['='] + value;
    if value == [] {
      assert e[|e| - 1] == '=';
    } else {
      assert e[|e| - 1] == value[|value| - 1];
    }
    SplitPair(key, value, '=');
  }

  /** Parsing what was serialised gives back the pairs, for values that
      survive the format. */
  lemma ParseSerialised(name: Option<string>, email: Option<string>)
    requires Clean(name) && Clean(email)
    ensures ParseBackup(Serialise(name, email)) == Pairs(name, email)
  {
    KeyIsPlain(NameKey);
    KeyIsPlain(EmailKey);
    ParseTwoEntries(NameKey, name, EmailKey, email);
  }

  /** The same round trip for any two keys that hold neither `=` nor a newline. */
  lemma {:induction false} ParseTwoEntries(k1: string, v1: Option<string>, k2: string, v2: Option<string>)
    requires '=' !in k1 && '\n' !in k1 && k1 != [] && Clean(v1)
    requires '=' !in k2 && '\n' !in k2 && k2 != [] && Clean(v2)
    ensures ParseBackup(EntryText(k1, v1) + EntryText(k2, v2))
         == (if v1.Some? then [(k1, v1.value)] else []) + (if v2.Some? then [(k2, v2.value)] else [])
  {
    var tail := EntryText(k2, v2);
    var tailPairs := if v2.Some? then [(k2, v2.value)] else [];
    if v2.Some? {
      EntryLine(k2, v2.value);
      LinesOfTerminated(Entry(k2, v2.value), "");
      assert tail == Entry(k2, v2.value) + "\n" + "";
      assert Lines(tail) == [Entry(k2, v2.value)];
      assert Lines(tail)[1..] == [];
    }
    assert ParsePairs(Lines(tail)) == tailPairs;
    if v1.Some? {
      EntryLine(k1, v1.value);
      LinesOfTerminated(Entry(k1, v1.value), tail);
      var ls := Lines(EntryText(k1, v1) + tail);
      assert ls == [Entry(k1, v1.value)] + Lines(tail);
      assert ls[1..] == Lines(tail);
    } else {
      assert EntryText(k1, v1) + tail == tail;
    }
  }

  /** One `if let Some(v) = get_git_config(key)? { writeln!(file, "key={}", v) }`
      step of `backup_config`, on a file that is already open. */
  function BackupKey(env: Env, w: World, path: string, key: string): (r: (Result<()>, World))
    requires path in w.files
    ensures r.1.config == w.config && r.1.profileFile == w.profileFile
    ensures r.1.log == w.log + [GitGet(key)]
    ensures r.0.Ok? <==> env.launches(GitGet(key))
    ensures r.1.files == w.files[path := w.files[path] + (if r.0.Ok? then EntryText(key, ConfigValue(w.config, key)) else "")]
  {
    var (got, w1) := GetGitConfig(env, w, key);
    match got
    case Err(e) =>
      assert w.files[path] + "" == w.files[path];
      (Err(e), w1)
    case Ok(v) =>
      (Ok(()), w1.(files := w1.files[path := w1.files[path] + EntryText(key, v)]))
  }

  /** What a file holds while `a` and then `b` are appended to an empty file. */
  lemma PrefixesOf(a: string, b: string)
    ensures "" <= a + b && a <= a + b && a + "" <= a + b
  {
    assert (a + b)[..|a|] == a;
  }

  /** Writing a file twice leaves only the second content. */
  lemma OverwriteTwice(files: map<string, string>, path: string, first: string, second: string)
    ensures files[path := first][path := second] == files[path := second]
  {
  }

  /** `backup_config(path)`: create (truncate) the file, then read `user.name`
      and append its line if set, then the same for `user.email`. A failed
      read leaves the file holding what was written so far. */
  function BackupConfig(env: Env, w: World, path: string): (r: (Result<()>, World))
    ensures r.1.config == w.config && r.1.profileFile == w.profileFile
    ensures !env.creatable(path) ==> r == (Err(IoError), w)
    ensures env.creatable(path) ==>
              && path in r.1.files
              && r.1.files == w.files[path := r.1.files[path]]
              && r.1.files[path] <= Serialise(ConfigValue(w.config, NameKey), ConfigValue(w.config, EmailKey))
    ensures r.0.Ok? <==> env.creatable(path) && env.launches(GitGet(NameKey)) && env.launches(GitGet(EmailKey))
    ensures r.0.Ok? ==> r.1.files[path] == Serialise(ConfigValue(w.config, NameKey), ConfigValue(w.config, EmailKey))
  {
    if !env.creatable(path) then (Err(IoError), w)
    else
      var r := BackupKeys(env, w.(files := w.files[path := ""]), path, NameKey, EmailKey);
      OverwriteTwice(w.files, path, "", r.1.files[path]);
      r
  }

  /** The two `get_git_config` and `writeln!` steps of `backup_config` on the
      freshly truncated file, the second only when the first read launched. */
  function BackupKeys(env: Env, w: World, path: string, k1: string, k2: string): (r: (Result<()>, World))
    requires path in w.files && w.files[path] == ""
    ensures r.1.config == w.config && r.1.profileFile == w.profileFile
    ensures path in r.1.files && r.1.files == w.files[path := r.1.files[path]]
    ensures r.0.Ok? <==> env.launches(GitGet(k1)) && env.launches(GitGet(k2))
    ensures r.1.files[path] <= EntryText(k1, ConfigValue(w.config, k1)) + EntryText(k2, ConfigValue(w.config, k2))
    ensures r.0.Ok? ==> r.1.files[path] == EntryText(k1, ConfigValue(w.config, k1)) + EntryText(k2, ConfigValue(w.config, k2))
  {
    var line1 := EntryText(k1, ConfigValue(w.config, k1));
    var line2 := EntryText(k2, ConfigValue(w.config, k2));
    var (first, w1) := BackupKey(env, w, path, k1);
    assert "" + "" == "" && "" + line1 == line1;
    PrefixesOf(line1, line2);
    if first.Err? then
      assert w1.files == w.files[path := ""];
      (first, w1)
    else
      assert w1.files == w.files[path := line1];
      var r := BackupKey(env, w1, path, k2);
      var final := line1 + (if r.0.Ok? then line2 else "");
      assert line1 + "" == line1;
      assert r.1.files == w.files[path := line1][path := final];
      OverwriteTwice(w.files, path, line1, final);
      r
  }

  /** The apply loop of `restore_config`: `configure_git(key, value)` for each
      pair in order, stopping at the first error. */
  function ApplyPairs(env: Env, w: World, pairs: seq<(string, string)>): (r: (Result<()>, World))
    ensures r.1.profileFile == w.profileFile && r.1.files == w.files && w.log <= r.1.log
    ensures r.0.Ok? <==> forall i :: 0 <= i < |pairs| ==> ConfigureLaunches(env, pairs[i].0, pairs[i].1)
    decreases |pairs|
  {
    if pairs == [] then (Ok(()), w)
    else
      var (res, w1) := ConfigureGit(env, w, pairs[0].0, pairs[0].1);
      if res.Err? then (res, w1) else ApplyPairs(env, w1, pairs[1..])
  }

  /** Applying the pairs of `lines[j..]` is handling line `j`, then the rest:
      a line that is not accepted is passed over. */
  lemma ApplyFromLine(env: Env, w: World, lines: seq<string>, j: nat)
    requires j < |lines|
    ensures var parts := Split(lines[j], '=');
      && (|parts| != 2 ==>
            ApplyPairs(env, w, ParsePairs(lines[j..])) == ApplyPairs(env, w, ParsePairs(lines[j + 1..])))
      && (|parts| == 2 ==>
            var (res, w1) := ConfigureGit(env, w, parts[0], parts[1]);
            ApplyPairs(env, w, ParsePairs(lines[j..]))
              == if res.Err? then (res, w1) else ApplyPairs(env, w1, ParsePairs(lines[j + 1..])))
  {
    var rest := ParsePairs(lines[j + 1..]);
    assert lines[j..][0] == lines[j] && lines[j..][1..] == lines[j + 1..];
    match ParseLine(lines[j]) {
      case None =>
        assert ParsePairs(lines[j..]) == [] + rest == rest;
      case Some(p) =>
        assert ParsePairs(lines[j..]) == [p] + rest;
        assert ([p] + rest)[0] == p && ([p] + rest)[1..] == rest;
    }
  }

  /** Once a pair fails, the pairs after it have no effect. */
  lemma {:induction false} ApplyStopsAtFirstError(env: Env, w: World, pairs: seq<(string, string)>, k: nat)
    requires k < |pairs| && !ConfigureLaunches(env, pairs[k].0, pairs[k].1)
    ensures ApplyPairs(env, w, pairs) == ApplyPairs(env, w, pairs[..k + 1])
    ensures ApplyPairs(env, w, pairs).0.Err?
    decreases k
  {
    if k > 0 {
      var w1 := ConfigureGit(env, w, pairs[0].0, pairs[0].1).1;
      assert pairs[..k + 1][1..] == pairs[1..][..k];
      ApplyStopsAtFirstError(env, w1, pairs[1..], k - 1);
    }
  }

  /** `restore_config(path)`: read the whole file, then apply its accepted lines. */
  function RestoreConfig(env: Env, w: World, path: string): (r: (Result<()>, World))
    ensures path !in w.files || !env.readable(path) ==> r == (Err(IoError), w)
    ensures r.1.files == w.files && r.1.profileFile == w.profileFile && w.log <= r.1.log
    ensures path in w.files && env.readable(path) ==>
              (r.0.Ok? <==> forall p :: p in ParseBackup(w.files[path]) ==> ConfigureLaunches(env, p.0, p.1))
  {
    if path !in w.files || !env.readable(path) then (Err(IoError), w)
    else ApplyPairs(env, w, ParseBackup(w.files[path]))
  }

  /** A file none of whose lines holds exactly one `=` restores nothing and
      succeeds. */
  lemma RestoreSkipsMalformedLines(env: Env, w: World, path: string)
    requires path in w.files && env.readable(path)
    requires forall l :: l in Lines(w.files[path]) ==> Count(l, '=') != 1
    ensures RestoreConfig(env, w, path) == (Ok(()), w)
  {
  }

  /** Every `git config --global` read and write launches and succeeds. */
  ghost predicate GitConfigWorks(env: Env) {
    && (forall k, v :: Succeeds(env, GitSet(k, v)))
    && (forall k :: env.launches(GitGet(k)))
  }

  /** Backing up and later restoring, as the code is written, does not give
      back the name: each line `k=v` becomes `configure_git(k, v)`, so the
      `user.name` line sets `user.name` to the text `user.name` and
      `user.email` to the name, and the `user.email` line then sets
      `user.name` to the text `user.email` and `user.email` to the email. */
  lemma BackupThenRestoreAsWritten(env: Env, w: World, path: string, later: World)
    requires GitConfigWorks(env) && env.creatable(path)
    requires ConfigValue(w.config, NameKey).Some? && ConfigValue(w.config, EmailKey).Some?
    requires Clean(ConfigValue(w.config, NameKey)) && Clean(ConfigValue(w.config, EmailKey))
    requires path in later.files && env.readable(path) && later.files[path] == BackupConfig(env, w, path).1.files[path]
    ensures BackupConfig(env, w, path).0 == Ok(())
    ensures var (r, w2) := RestoreConfig(env, later, path);
      && r == Ok(())
      && w2.config == later.config[NameKey := EmailKey][EmailKey := ConfigValue(w.config, EmailKey).value]
  {
    var n, e := ConfigValue(w.config, NameKey), ConfigValue(w.config, EmailKey);
    var pairs := BackedUpPairs(env, w, path, later);
    var c1 := ConfigureGit(env, later, NameKey, n.value).1;
    ApplyTwo(env, later, pairs[0], pairs[1]);
    var c2 := ConfigureGit(env, c1, EmailKey, e.value).1;
    assert c2.config == later.config[NameKey := NameKey][EmailKey := n.value][NameKey := EmailKey][EmailKey := e.value];
    SetTwiceTwice(later.config, NameKey, EmailKey, NameKey, n.value, EmailKey, e.value);
  }

  /** What a later restore reads back from a backup of two set, clean values. */
  lemma BackedUpPairs(env: Env, w: World, path: string, later: World) returns (pairs: seq<(string, string)>)
    requires GitConfigWorks(env) && env.creatable(path)
    requires ConfigValue(w.config, NameKey).Some? && ConfigValue(w.config, EmailKey).Some?
    requires Clean(ConfigValue(w.config, NameKey)) && Clean(ConfigValue(w.config, EmailKey))
    requires path in later.files && later.files[path] == BackupConfig(env, w, path).1.files[path]
    ensures BackupConfig(env, w, path).0 == Ok(())
    ensures pairs == [(NameKey, ConfigValue(w.config, NameKey).value), (EmailKey, ConfigValue(w.config, EmailKey).value)]
    ensures ParseBackup(later.files[path]) == pairs
  {
    var n, e := ConfigValue(w.config, NameKey).value, ConfigValue(w.config, EmailKey).value;
    assert env.launches(GitGet(NameKey)) && env.launches(GitGet(EmailKey));
    assert later.files[path] == Serialise(Some(n), Some(e));
    pairs := ParseBothSet(n, e);
  }

  /** A backup holding both values parses to the `user.name` pair and then
      the `user.email` pair. */
  lemma ParseBothSet(n: string, e: string) returns (pairs: seq<(string, string)>)
    requires Clean(Some(n)) && Clean(Some(e))
    ensures pairs == [(NameKey, n), (EmailKey, e)]
    ensures ParseBackup(Serialise(Some(n), Some(e))) == pairs
  {
    ParseSerialised(Some(n), Some(e));
    pairs := [(NameKey, n), (EmailKey, e)];
    assert Pairs(Some(n), Some(e)) == [(NameKey, n)] + [(EmailKey, e)] == pairs;
  }

  /** Two successful `configure_git` steps, one per pair, and nothing more. */
  lemma ApplyTwo(env: Env, w: World, a: (string, string), b: (string, string))
    requires ConfigureLaunches(env, a.0, a.1) && ConfigureLaunches(env, b.0, b.1)
    ensures ApplyPairs(env, w, [a, b]) == (Ok(()), ConfigureGit(env, ConfigureGit(env, w, a.0, a.1).1, b.0, b.1).1)
  {
    var w1 := ConfigureGit(env, w, a.0, a.1).1;
    var w2 := ConfigureGit(env, w1, b.0, b.1).1;
    assert [a, b][1..] == [b];
    assert ApplyPairs(env, w, [a, b]) == ApplyPairs(env, w1, [b]);
    assert [b][1..] == [];
    assert ApplyPairs(env, w1, [b]) == ApplyPairs(env, w2, []);
  }

  /** Setting the same two keys twice keeps only the second round. */
  lemma SetTwiceTwice(m: map<string, string>, k1: string, k2: string, x1: string, y1: string, x2: string, y2: string)
    ensures m[k1 := x1][k2 := y1][k1 := x2][k2 := y2] == m[k1 := x2][k2 := y2]
  {
  }

  const SetFailed := "Failed to set Git "

  /** Corrected apply loop: each pair `(key, value)` runs
      `git config --global key value`, stopping at the first launch failure. */
  function ApplyPairsFixed(env: Env, w: World, pairs: seq<(string, string)>): (r: (Result<()>, World))
    ensures r.1.profileFile == w.profileFile && r.1.files == w.files
    ensures r.0.Ok? <==> forall i :: 0 <= i < |pairs| ==> env.launches(GitSet(pairs[i].0, pairs[i].1))
    decreases |pairs|
  {
    if pairs == [] then (Ok(()), w)
    else
      var (out, w1) := Spawn(env, w, GitSet(pairs[0].0, pairs[0].1));
      if out.LaunchFailed? then (Err(CommandFailed(SetFailed + pairs[0].0)), w1)
      else ApplyPairsFixed(env, w1, pairs[1..])
  }

  /** Corrected `restore_config`. */
  function RestoreConfigFixed(env: Env, w: World, path: string): (r: (Result<()>, World))
    ensures path !in w.files || !env.readable(path) ==> r == (Err(IoError), w)
    ensures r.1.files == w.files && r.1.profileFile == w.profileFile
  {
    if path !in w.files || !env.readable(path) then (Err(IoError), w)
    else ApplyPairsFixed(env, w, ParseBackup(w.files[path]))
  }

  /** With the corrected restore, backing up and later restoring gives back
      what `get_git_config` reported for both keys at backup time, whatever
      happened to the configuration in between. */
  lemma BackupThenRestoreFixed(env: Env, w: World, path: string, later: World)
    requires GitConfigWorks(env) && env.creatable(path)
    requires ConfigValue(w.config, NameKey).Some? && ConfigValue(w.config, EmailKey).Some?
    requires Clean(ConfigValue(w.config, NameKey)) && Clean(ConfigValue(w.config, EmailKey))
    requires path in later.files && env.readable(path) && later.files[path] == BackupConfig(env, w, path).1.files[path]
    ensures BackupConfig(env, w, path).0 == Ok(())
    ensures var (r, w2) := RestoreConfigFixed(env, later, path);
      && r == Ok(())
      && ConfigValue(w2.config, NameKey) == ConfigValue(w.config, NameKey)
      && ConfigValue(w2.config, EmailKey) == ConfigValue(w.config, EmailKey)
  {
    var n, e := ConfigValue(w.config, NameKey).value, ConfigValue(w.config, EmailKey).value;
    var pairs := BackedUpPairs(env, w, path, later);
    assert Succeeds(env, GitSet(NameKey, n)) && Succeeds(env, GitSet(EmailKey, e));
    RestoreFixedOfTwo(env, later, path, NameKey, n, EmailKey, e);
  }

  /** The corrected restore of a file holding two pairs for distinct keys,
      with values that read back unchanged, sets both. */
  lemma RestoreFixedOfTwo(env: Env, later: World, path: string, k1: string, v1: string, k2: string, v2: string)
    requires path in later.files && env.readable(path) && ParseBackup(later.files[path]) == [(k1, v1), (k2, v2)]
    requires Succeeds(env, GitSet(k1, v1)) && Succeeds(env, GitSet(k2, v2))
    requires k1 != k2 && v1 != [] && IsTrimmed(v1) && v2 != [] && IsTrimmed(v2)
    ensures var (r, w2) := RestoreConfigFixed(env, later, path);
      && r == Ok(())
      && ConfigValue(w2.config, k1) == Some(v1)
      && ConfigValue(w2.config, k2) == Some(v2)
  {
    ApplyTwoFixed(env, later, (k1, v1), (k2, v2));
    var c2 := Spawn(env, Spawn(env, later, GitSet(k1, v1)).1, GitSet(k2, v2)).1;
    assert c2.config == later.config[k1 := v1][k2 := v2];
    ReadBackTwo(later.config, k1, v1, k2, v2);
  }

  /** Two distinct keys set to non-empty trimmed values read back as set. */
  lemma ReadBackTwo(m: map<string, string>, k1: string, v1: string, k2: string, v2: string)
    requires k1 != k2
    requires v1 != [] && IsTrimmed(v1) && v2 != [] && IsTrimmed(v2)
    ensures ConfigValue(m[k1 := v1][k2 := v2], k1) == Some(v1)
    ensures ConfigValue(m[k1 := v1][k2 := v2], k2) == Some(v2)
  {
  }

  /** Two launched `git config --global k v` steps, one per pair, and nothing more. */
  lemma ApplyTwoFixed(env: Env, w: World, a: (string, string), b: (string, string))
    requires env.launches(GitSet(a.0, a.1)) && env.launches(GitSet(b.0, b.1))
    ensures ApplyPairsFixed(env, w, [a, b]) == (Ok(()), Spawn(env, Spawn(env, w, GitSet(a.0, a.1)).1, GitSet(b.0, b.1)).1)
  {
    var w1 := Spawn(env, w, GitSet(a.0, a.1)).1;
    var w2 := Spawn(env, w1, GitSet(b.0, b.1)).1;
    assert [a, b][1..] == [b];
    assert ApplyPairsFixed(env, w, [a, b]) == ApplyPairsFixed(env, w1, [b]);
    assert [b][1..] == [];
    assert ApplyPairsFixed(env, w1, [b]) == ApplyPairsFixed(env, w2, []);
  }
}
