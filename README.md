# chef-load configuration validator

chef-load is a command-line tool that simulates load on a Chef Server and/or a
Chef Automate data collector. Before it simulates anything, it turns the
settings that viper merged from built-in defaults, an optional TOML config file
and command-line flags into one `chef_load.Config`. This model covers the one
piece of logic in that step: `configFromViper` in `commands/root.go`. The
function does four things, in order:

1. It returns viper's unmarshal error unchanged.
2. It rejects a record with neither `chef_server_url` nor `data_collector_url`.
3. When a chef-server URL is set, it switches chef-client runs on. It also
   normalises the URL to end in `/` and then requires `client_name` and
   `client_key`.
4. When only the data-collector URL is set, it puts in the fixed server URL
   `https://chef.example.com/organizations/demo/`.

Files:

- `config.dfy`, module `ChefLoad`: the settings record. `Config` has one field
  per viper key. `FlagDefaults` is the record that results when no file and no
  flag sets anything.
- `root.dfy`, module `Commands`:
  - `ConfigFromViper` is the command's step-by-step method. It works on a local
    copy of the record and returns early on each error.
  - `Validate` is the declarative definition that the method is proved equal to.
  - The lemmas relate several validations.

The input to `ConfigFromViper` is an `Unmarshalled` value. It is either the
merged record or the error that `viper.Unmarshal` failed with. Errors are an
`Error` datatype with one variant per kind. `Message` gives the exact text the
command reports for each kind.

What the code does, and does not, promise about the result:

- `configFromViper` never writes `RunChefClient` in data-collector-only mode
  (commands/root.go:112-116), so a `true` from the merged settings stays `true`
  (`Validate`, last ensures).
- A second validation is a fixed point only in chef-server mode
  (`ChefServerFixedPoint`). In data-collector-only mode, the second pass treats
  the placeholder as a chef-server URL. It then fails without credentials, or
  switches chef-client runs on (`DataCollectorSecondPass`).
- The flag help text at commands/root.go:68 and 70 says 0.0 - 1.0 for the two
  float settings, and the interval at line 66 is in minutes, but nothing checks
  their range, so the model does not either.

## Model

| member | source | states |
|---|---|---|
| `Commands.ConfigFromViper` | commands/root.go:92-119 | An unmarshal failure is returned as a source error carrying the same cause, whatever the record would have been, and no check runs after it; otherwise the result is exactly `Validate` of the merged record |
| `Commands.Validate` | commands/root.go:98-116 | Fails with the missing-endpoint error if and only if both URLs are empty; fails with the missing-credentials error if and only if the chef-server URL is set and a credential is empty; no other error; every success keeps every field but the chef-server URL and `runChefClient`, and has a non-empty chef-server URL ending in `/`; with a chef-server URL in the input, `runChefClient` is true and the URL is the normalised input; without one, the URL is the placeholder and `runChefClient` is as merged |
| `Commands.WithTrailingSlash` | commands/root.go:104-106 | The result ends in `/`, starts with the input URL, and is one character longer than the input exactly when the input did not already end in `/` (so it equals the input when it did) |
| `Commands.ChefServerFixedPoint` | commands/root.go:102-110 | Validating a successful chef-server-mode result again gives back that same result |
| `Commands.ValidatorRange` | commands/root.go:98-118 | A record is the result of some successful validation if and only if it is a normalised chef-server record with both credentials and chef-client runs on, or a data-collector record whose chef-server URL is the placeholder |
| `Commands.DataCollectorSecondPass` | commands/root.go:102-116 | Data-collector-only input validates, but a second pass over its result fails for missing credentials when one is empty, and otherwise returns the record with chef-client runs switched on |
| `Commands.ValidationErrorText` | commands/root.go:98-109 | A failed validation reports the missing-endpoint text exactly when neither URL is set, and the missing-credentials text otherwise |
| `Commands.Message` | commands/root.go:95-108 | An unmarshal error is reported with its own text unchanged; the missing-endpoint and missing-credentials errors carry the exact texts of lines 99 and 108 |
| `Commands.HasSuffix` | commands/root.go:104 | `strings.HasSuffix`: true exactly when the string is some string followed by the suffix |
| `ChefLoad.FlagDefaults` | commands/root.go:53-70 | With no file and no flag set, every flag-bound key takes its flag default (empty URLs, prefix `chef-load`, counts 0, format `full`, booleans false, interval 30, scale factor 1.0, replacement rate 0.0), and the keys without a flag keep the library default's values |
| `Commands.DefaultsOnlyRejected` | commands/root.go:53-70 | With every flag at its default and no config file, both URLs are empty, so validation fails with the missing-endpoint error whatever the library defaults hold |

## Left out

- `Execute` and its `os.Exit` (commands/root.go:43-48), and the printing and exit in `initConfig` (commands/root.go:78-81): process plumbing.
- Flag registration with cobra and `viper.BindPFlags` (commands/root.go:50-72), and config-file discovery in `initConfig` (commands/root.go:74-90): calls into libraries and file I/O. The flag defaults are kept only as the values in `FlagDefaults`.
- The precedence of flag over file over default: `viper.Unmarshal` does it, and viper is not part of this model. Its outcome is the `Unmarshalled` input.
- `chef_load.Default()` and the `Config` struct are in `lib`, which is not part of this model. The record's fields are the viper keys the command binds, plus `client_name`, `client_key` and `run_chef_client`. Any further field of the real struct would be carried through untouched like these. `FlagDefaults` takes the library default as a parameter and fixes only the flag-bound fields.
- Floating-point settings are carried as IEEE-754 bit patterns and integers as 64-bit values. Nothing is computed on them.
- Strings are sequences of characters, not Go's bytes. The code tests four strings for emptiness (commands/root.go:98, 102, 107, 112), tests whether the URL ends in `/` (line 104) and appends `/` (line 105). A string is empty as bytes exactly when it is empty as characters, and `/` is one byte in UTF-8 that never occurs inside a multi-byte sequence, so both readings agree on all of these.
- The returned `*Config` and Go's `nil` become the two cases of `Result`: a success carries the record and a failure carries no record.
- The error value `viper.Unmarshal` returns (commands/root.go:94-95) is reduced to its message: `SourceError` keeps the text, not the error's dynamic type or wrapped causes.
