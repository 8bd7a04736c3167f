/** How a client obtains its API key at construction: the explicit argument,
    else the `MANDRILL_APIKEY` environment variable, else the first key file
    that exists and holds something other than whitespace. The environment and
    the file system are inputs: `env` maps variable names to values and `files`
    maps the paths that exist to their contents. */
module Credentials {
  import opened Wrappers
  import opened Json
  import opened Errors
  import opened RubyString

  const ApiKeyVariable := "MANDRILL_APIKEY"
  const SystemKeyFile := "/etc/mandrill.key"
  const MissingKeyMessage := "You must provide a Mandrill API key"

  /** A path whose file exists and whose stripped contents are non-empty. */
  predicate HoldsKey(files: map<string, string>, path: string) {
    path in files && Strip(files[path]) != ""
  }

  /** `read_configs`: walk the paths in order, skip those that do not exist,
      and answer the stripped contents of the first file that is not blank;
      `nil` when no file qualifies. */
  function ReadConfigs(files: map<string, string>, paths: seq<string>): (r: Option<string>)
    ensures r.None? <==> forall i :: 0 <= i < |paths| ==> !HoldsKey(files, paths[i])
    ensures r.Some? ==> r.value != ""
  {
    if paths == [] then None
    else if HoldsKey(files, paths[0]) then Some(Strip(files[paths[0]]))
    else
      var rest := paths[1..];
      assert forall j :: 0 <= j < |rest| ==> rest[j] == paths[j + 1];
      ReadConfigs(files, rest)
  }

  /** `paths[i]` holds a key and no earlier path does. */
  predicate FirstKeyFile(files: map<string, string>, paths: seq<string>, i: nat)
    requires i < |paths|
  {
    HoldsKey(files, paths[i]) && forall j :: 0 <= j < i ==> !HoldsKey(files, paths[j])
  }

  /** The first path that holds a key is the one whose stripped contents
      `read_configs` answers; later files are never looked at. */
  lemma {:induction false} ReadConfigsTakesFirst(files: map<string, string>, paths: seq<string>,
                                                 i: nat)
    requires i < |paths| && FirstKeyFile(files, paths, i)
    ensures ReadConfigs(files, paths) == Some(Strip(files[paths[i]]))
    decreases i
  {
    if i > 0 {
      assert !HoldsKey(files, paths[0]);
      var rest := paths[1..];
      assert forall j :: 0 <= j < i - 1 ==> rest[j] == paths[j + 1];
      assert FirstKeyFile(files, rest, i - 1);
      ReadConfigsTakesFirst(files, rest, i - 1);
    }
  }

  /** The key the constructor ends up with, or `None` when it must raise. */
  function ResolveKey(explicit: Option<string>, env: map<string, string>, homeKeyFile: string,
                      files: map<string, string>): (r: Option<string>)
    ensures r.None? <==> explicit.None? && ApiKeyVariable !in env
                         && !HoldsKey(files, homeKeyFile)
                         && !HoldsKey(files, SystemKeyFile)
    ensures r == Some("") ==> explicit == Some("")
                              || (explicit.None? && ApiKeyVariable in env && env[ApiKeyVariable] == "")
  {
    if explicit.Some? then explicit
    else if ApiKeyVariable in env then Some(env[ApiKeyVariable])
    else
      var paths := [homeKeyFile, SystemKeyFile];
      assert paths[0] == homeKeyFile && paths[1] == SystemKeyFile;
      ReadConfigs(files, paths)
  }

  /** A client as `initialize` leaves it: it holds the resolved key, and its
      host and path prefix are the values `initialize` sets (constants of the
      API module). Later reassignment through the attribute writers is not
      modelled. */
  datatype Client = Client(apikey: string)

  /** `API.new(apikey)`: a client with the resolved key, or the base `Error`
      with the missing-key message when no source supplied one. */
  function NewClient(explicit: Option<string>, env: map<string, string>, homeKeyFile: string,
                     files: map<string, string>): (r: Result<Client, MandrillError>)
    ensures r.Failure? <==> ResolveKey(explicit, env, homeKeyFile, files).None?
    ensures r.Failure? ==> r.error == MandrillError(Error, JString(MissingKeyMessage))
    ensures r.Success? ==> Some(r.value.apikey) == ResolveKey(explicit, env, homeKeyFile, files)
  {
    match ResolveKey(explicit, env, homeKeyFile, files)
    case None => Failure(MandrillError(Error, JString(MissingKeyMessage)))
    case Some(key) => Success(Client(key))
  }

  /** An explicit key, even `""`, is kept as given; the environment and the
      files do not matter. */
  lemma ExplicitKeyWins(key: string, env: map<string, string>, homeKeyFile: string,
                        files: map<string, string>)
    ensures NewClient(Some(key), env, homeKeyFile, files) == Success(Client(key))
  {
  }

  /** Without an explicit key, a set `MANDRILL_APIKEY` (even `""`) is used and
      no file is consulted. */
  lemma EnvironmentBeatsFiles(env: map<string, string>, homeKeyFile: string,
                              files: map<string, string>)
    requires ApiKeyVariable in env
    ensures NewClient(None, env, homeKeyFile, files) == Success(Client(env[ApiKeyVariable]))
  {
  }

  /** With neither an explicit key nor the variable, the home file wins when it
      holds a key, whatever the system file says. */
  lemma HomeFileBeatsSystemFile(env: map<string, string>, homeKeyFile: string,
                                files: map<string, string>)
    requires ApiKeyVariable !in env
    requires HoldsKey(files, homeKeyFile)
    ensures NewClient(None, env, homeKeyFile, files)
            == Success(Client(Strip(files[homeKeyFile])))
  {
    ReadConfigsTakesFirst(files, [homeKeyFile, SystemKeyFile], 0);
  }

  /** A missing or blank home file falls through to the system file. */
  lemma BlankHomeFileFallsThrough(env: map<string, string>, homeKeyFile: string,
                                  files: map<string, string>)
    requires ApiKeyVariable !in env
    requires !HoldsKey(files, homeKeyFile)
    ensures NewClient(None, env, homeKeyFile, files)
            == if HoldsKey(files, SystemKeyFile)
               then Success(Client(Strip(files[SystemKeyFile])))
               else Failure(MandrillError(Error, JString(MissingKeyMessage)))
  {
    if HoldsKey(files, SystemKeyFile) {
      ReadConfigsTakesFirst(files, [homeKeyFile, SystemKeyFile], 1);
    }
  }

  /** Blankness means whitespace only: a key file holding nothing but spaces
      and newlines is treated exactly as if it did not exist. */
  lemma {:induction false} BlankFileIsAbsent(files: map<string, string>, path: string,
                                             paths: seq<string>)
    requires path in files && AllSpace(files[path])
    ensures ReadConfigs(files, paths) == ReadConfigs(files - {path}, paths)
    decreases |paths|
  {
    if paths != [] {
      StripEmptyIffAllSpace(files[path]);
      assert HoldsKey(files, paths[0]) == HoldsKey(files - {path}, paths[0]);
      BlankFileIsAbsent(files, path, paths[1..]);
    }
  }
}
