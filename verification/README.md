# Mandrill API client core, modelled in Dafny

This project models the one part of the Ruby `mandrill-api` client that makes
decisions: the `Mandrill::API` class in `lib/mandrill.rb`. Every resource
wrapper (templates, users, messages and so on) forwards to its `call` method.
The model has three pure pieces:

- **Credential resolution** (`API#initialize`, `read_configs`). The key comes
  from the explicit argument, else from the `MANDRILL_APIKEY` environment
  variable, else from the first key file, `~/.mandrill.key` and then
  `/etc/mandrill.key`, whose stripped contents are non-empty. When no source
  gives a key, construction raises `Mandrill::Error` with the message "You must
  provide a Mandrill API key".
- **Request construction** (`call`). For a client as `initialize` leaves it,
  the request goes to `"/api/1.0/" + url + ".json"` on `https://mandrillapp.com` with a JSON content type. The `key` parameter is
  set to the client's key and every other parameter passes through unchanged.
- **Response outcome** (`call`, `cast_error`). A 200 response returns the
  parsed body. Any other status goes to `cast_error`, which always raises: a
  specific class for the nine server error names in `error_map`, the base
  `Mandrill::Error` with the server message for any other name, and the base
  class with "We received an unexpected error: " plus the raw body when the
  body cannot be interpreted.

Modules: `Wrappers` (Option, Result), `Json` (parsed values, Ruby `nil` and
truthiness), `Errors` (the classes of `lib/mandrill/errors.rb` and the
`error_map` table), `RubyString` (`String#strip`), `Credentials` and `Api`.

The environment, the file system and the HTTP response are inputs:
- `env` maps variable names to values.
- `files` maps each existing path to its contents.
- `homeKeyFile` is the path `File.expand_path('~/.mandrill.key')` yields.
- A `Response` holds the status, the raw body and what `JSON.parse` made of the body.

A call ends in one of three ways: `Returned`, `Raised` (a `Mandrill::Error` or
one of its subclasses), or `Escaped`. `Escaped` means an exception from outside
the client's error classes left `call`: a `JSON::ParserError` for an unparsable
200 body, or the `TypeError`/`NoMethodError` Ruby raises when a non-200 body
parses to an array, number, boolean or `null` and the code indexes it by
`'status'`. A non-200 body that parses to a string gives the generic
unexpected error, because `String#[]` with `'status'` never returns `"error"`.

`Api.Call` is a function of the client, the operation, the parameters and the
response alone. Nothing carries over from one call to the next. The returned
value is the parsed body exactly as received: the client neither adds nor
removes anything, including the key.

Three facts about the code are easy to miss:
- A missing key, an uninterpretable body and an unrecognised error name all
  raise the base `Mandrill::Error`. The code has no separate class for them.
- An explicit or environment-supplied `""` is accepted as the key, because
  only `nil` triggers the missing-key error. Only blank key files are skipped
  (`Credentials.ExplicitKeyWins`, `Credentials.EnvironmentBeatsFiles`).
- `PaymentRequiredError`, `ServiceUnavailableError`, `UnknownMessageError`,
  `UnknownInboundDomainError` and `UnknownExportError` are declared in
  `lib/mandrill/errors.rb`, but `error_map` has no entry for them, so they are
  never raised (`Errors.ErrorMapRange`, `Api.CastError`).

## Model

| member | source | states |
|---|---|---|
| `Errors.NameOf` | lib/mandrill.rb:54-64 | exactly the nine classes in `error_map` have a server name; the base class and the five unmapped classes have none |
| `Errors.Lookup` | lib/mandrill.rb:71-72 | a `name` value finds a class only if it is a string key of the table; the class found is never the base class or an unmapped one, and its reverse name is that key |
| `Errors.NameOfInvertsErrorMap` | lib/mandrill.rb:54-64 | the table and its reverse agree in both directions: `name -> class` holds exactly when the class's name is `name` |
| `Errors.ErrorMapInjective` | lib/mandrill.rb:54-64 | the table sends distinct names to distinct classes |
| `Errors.ErrorMapSize` | lib/mandrill.rb:54-64 | the table's keys are exactly the nine listed names, and it has nine entries |
| `Errors.ErrorMapRange` | lib/mandrill/errors.rb:2-31 | a declared class is reachable from the table exactly when it is neither the base class nor one of the five unmapped classes |
| `RubyString.TrimStart` | lib/mandrill.rb:44 | the result is a suffix of the input, everything dropped is whitespace, and it does not start with whitespace |
| `RubyString.TrimEnd` | lib/mandrill.rb:44 | the result is a prefix of the input, everything dropped is whitespace, and it does not end with whitespace |
| `RubyString.Strip` | lib/mandrill.rb:44 | the result is the slice of the input between an all-whitespace prefix and an all-whitespace suffix, and it neither starts nor ends with whitespace |
| `RubyString.StripEmptyIffAllSpace` | lib/mandrill.rb:44-46 | stripped contents are empty exactly when the file holds only whitespace |
| `RubyString.StripIdempotent` | lib/mandrill.rb:44 | stripping an already stripped text changes nothing |
| `Credentials.ReadConfigs` | lib/mandrill.rb:41-50 | answers `nil` exactly when no path both exists and has non-blank contents; any key it answers is non-empty |
| `Credentials.ReadConfigsTakesFirst` | lib/mandrill.rb:42-46 | when path `i` is the first that exists with non-blank contents, the answer is that file's stripped contents, whatever later files hold |
| `Credentials.ResolveKey` | lib/mandrill.rb:20-26 | no key exactly when there is no explicit key, no `MANDRILL_APIKEY` and neither key file holds a key; an empty key can only come from the explicit argument or the variable |
| `Credentials.NewClient` | lib/mandrill.rb:28-29 | construction fails exactly when no key was resolved, with the base error and the missing-key message; otherwise the client holds the resolved key |
| `Credentials.ExplicitKeyWins` | lib/mandrill.rb:20 | an explicit key, `""` included, is the client's key whatever the environment and files hold |
| `Credentials.EnvironmentBeatsFiles` | lib/mandrill.rb:21-22 | without an explicit key, a set `MANDRILL_APIKEY`, `""` included, is the key whatever the files hold |
| `Credentials.HomeFileBeatsSystemFile` | lib/mandrill.rb:42-46 | with neither explicit key nor variable, a non-blank home key file supplies the stripped key whatever `/etc/mandrill.key` holds |
| `Credentials.BlankHomeFileFallsThrough` | lib/mandrill.rb:42-49 | a missing or blank home file defers to `/etc/mandrill.key`, and construction fails when that is missing or blank too |
| `Credentials.BlankFileIsAbsent` | lib/mandrill.rb:42-46 | removing a whitespace-only file from the file system does not change what `read_configs` answers |
| `Api.RequestPath` | lib/mandrill.rb:35 | the path is the prefix `/api/1.0/`, then the operation name, then `.json`; what this guarantees to callers is stated by `Api.PathRoundTrip` and `Api.RequestPathInjective` |
| `Api.PathRoundTrip` | lib/mandrill.rb:35 | reading the operation back from a path gives `url` exactly when the path is `"/api/1.0/" + url + ".json"` |
| `Api.RequestPathInjective` | lib/mandrill.rb:35 | distinct operation names are posted to distinct paths |
| `Api.BuildRequest` | lib/mandrill.rb:14-35 | the request goes to the host `https://mandrillapp.com`, the path names the operation, the content type is JSON, the parameter keys are the caller's plus `key`, `key` holds the client's key (overwriting any caller value), and every other parameter is unchanged |
| `Api.CastError` | lib/mandrill.rb:52-79 | never returns; escapes only for a parsed body that is neither an object nor a string; a parsed string raises the generic error quoting the body; never raises an unmapped class; for any object with status `"error"` and a truthy `name`, raises `error_map[name]` when `name` is one of its string keys and the base class otherwise, carrying the object's `message` (any other fields ignored); a specific class is raised only in that case |
| `Api.Unexpected` | lib/mandrill.rb:69 | the generic error has the base class and the message "We received an unexpected error: " followed by the raw body |
| `Api.Call` | lib/mandrill.rb:32-39 | posts the request built for the client's key; returns exactly when the status is 200 and the body parsed, and then returns the parsed body; a 200 whose body does not parse lets the parser's exception escape and never raises a client error; any other status has `cast_error`'s outcome |
| `Api.KnownNameRaisesItsClass` | lib/mandrill.rb:71-72 | any object with status `"error"` and a recognised name raises exactly that name's class with the object's `message`, whatever other fields it has |
| `Api.UnknownNameRaisesBaseError` | lib/mandrill.rb:73-74 | any object with status `"error"` and a truthy name that is not a string key of the table (`""`, `42` and `true` included) raises the base class with the object's `message` |
| `Api.MalformedBodyIsUnexpected` | lib/mandrill.rb:66-78 | an unparsable body, or an object whose status is not `"error"` or whose name is absent, `null` or `false`, raises the base class with "We received an unexpected error: " plus the raw body |
| `Api.NonSuccessNeverReturns` | lib/mandrill.rb:37-38 | a non-200 call never returns a value; it raises a client error unless the body parsed to a non-object, non-string value |

## Left out

- HTTP transport (`Excon.new`, `@session.post`, lib/mandrill.rb:17, 35): network I/O. The response is an input, and the model does not link it to the request.
- JSON encoding and decoding (`JSON.generate`, `JSON.parse`): library calls. Parsed values are an abstract `Json` datatype, and the parse result is given next to the raw body. Whether a top-level scalar parses depends on the JSON library version, so the parser decides.
- Environment and file-system reads: they are inputs. The expanded home key-file path is the `homeKeyFile` input, so the model does not cover how `File.expand_path` builds it. The model also does not cover the `ArgumentError` it raises when `HOME` is not an absolute path. That exception leaves `initialize`. The model also does not cover a file that disappears between `File.exist?` and `File.new`, a path that is a directory, or an unreadable file. Each of these raises an I/O exception in Ruby.
- The attribute writers `host=`, `path=`, `apikey=`, `session=` and `debug=` (lib/mandrill.rb:11). The model covers a client as `initialize` leaves it (lines 14-15, 17, 29). After `api.path = ...`, `api.apikey = nil` or `api.session = Excon.new(other)`, `call` would post to another path, send `"key": null` or reach another host. `Api.BuildRequest`'s host and path clauses do not describe that case.
- The `debug` flag (lib/mandrill.rb:18): it is stored and never read.
- The resource wrappers in lib/mandrill/api.rb and the accessors `templates` … `senders` (lib/mandrill.rb:81-104). Each wrapper is a fixed `call` with fixed parameter names and no branching.
- Credentials.ResolveKey: the explicit key is a string or absent. Ruby also treats an explicit `false` as absent. Other non-string keys are not modelled.
- Api.BuildRequest: parameter names are plain strings. Ruby's `params[:key]` writes the Symbol `:key`. A caller-supplied String `"key"` would survive next to it, and both would be serialised as `"key"`. The resource wrappers only use Symbol keys.
- Api.Call: Ruby mutates the caller's own parameter hash when it injects the key. The model returns the updated parameters in the request instead of changing the caller's map.
- Api.CastError: the raised error carries the `message` value as the server sent it. The model does not cover Ruby's conversion to text, where a missing message reads as the class name.
- Api.CastError: all foreign exceptions are one `Escaped` outcome. The model does not say which Ruby exception class it is.
- RubyString.Strip: the whitespace set is NUL, tab, line feed, vertical tab, form feed, carriage return and space, at both ends. This is current Ruby behaviour. Older Ruby versions kept a leading NUL in `lstrip`. Encodings and non-ASCII whitespace are not modelled.
