# Grid daemon configuration builder

A Dafny model of the configuration builder of the Grid daemon
(`daemon/src/config.rs`). The builder holds three optional settings: the
validator endpoint, the log level and the REST API endpoint. It starts from
defaults (`tcp://127.0.0.1:4004`, `Warn`, `127.0.0.1:8080`). `with_cli_args`
lays the command-line values over it: a `connect` or `bind` value that is
present wins, otherwise the builder's own value is moved out of it with
`take()`; the number of `verbose` occurrences selects the log level (0 gives
`Warn`, 1 gives `Info`, 2 or more give `Debug`). `build` checks the three
settings in order and either returns the finished `GridConfig` or a
`MissingValue` error naming the first absent setting.

Files:

- `wrappers.dfy` (module `Wrappers`): `Option` and `Result`. `Option.Or` gives
  the value of `or_else` and `Option.ToResult` models `ok_or_else`; `Result`
  supports `:-`, the counterpart of Rust's `?`.
- `config.dfy` (module `Config`): `Level` (the log crate's levels with their
  discriminants), `ConfigurationError`, `ArgMatches` (the parsed command line,
  abstracted to the `connect` and `bind` values and the `verbose` count),
  `GridConfig` with its accessors, `BuilderState` (the value of a builder) with
  the specification functions `Overlay`, `Remainder` and `Build`, and the class
  `GridConfigBuilder`, whose `WithCliArgs` changes the builder in place and
  returns a new one, proved against those functions. Lemmas relate the
  operations to each other.

`with_cli_args` has two results: the new builder it returns
(`BuilderState.Overlay`) and what it leaves in the builder it was called on
(`BuilderState.Remainder`). Rust's `or_else` runs its closure only when the
command-line value is absent, so only then is the builder's own field taken.
The log level always comes from the verbose count, so the builder's own log
level is never used and never taken.

## Model

| member | source | states |
|---|---|---|
| `Config.GridConfigBuilder.Default` | daemon/src/config.rs:48-55 | the default builder holds `tcp://127.0.0.1:4004`, `Warn` and `127.0.0.1:8080`, all present |
| `Config.DefaultState` | daemon/src/config.rs:48-55 | the default builder is complete: every setting is present |
| `Config.LevelFromVerbose` | daemon/src/config.rs:65-69 | 0 verbose occurrences give exactly `Warn`, 1 gives exactly `Info`, 2 or more give exactly `Debug` |
| `Config.VerboseCountFor` | daemon/src/config.rs:65-69 | inverse of the count-to-level mapping: the fewest occurrences that select a given Warn/Info/Debug level |
| `Config.LevelFromVerboseMonotone` | daemon/src/config.rs:65-69 | the selected level is always Warn, Info or Debug, and more occurrences never select a quieter level |
| `Config.BuilderState.Overlay` | daemon/src/config.rs:59-76 | in the returned builder each endpoint is the command-line value when present and the builder's own value otherwise; the log level is always the one the verbose count selects |
| `Config.BuilderState.Remainder` | daemon/src/config.rs:61-74 | in the builder called on, an endpoint whose command-line value is absent becomes unset, one whose value is present is untouched, and the log level is untouched |
| `Config.GridConfigBuilder.WithCliArgs` | daemon/src/config.rs:59-76 | returns a fresh builder holding the overlaid settings and leaves exactly the remainder in the builder it was called on |
| `Config.BuilderState.Build` | daemon/src/config.rs:78-93 | succeeds exactly when all three settings are present, with accessors returning those values; otherwise fails with `MissingValue` of `validator_endpoint`, `log_level` or `rest_api_endpoint`, the first absent in that order |
| `Config.GridConfigBuilder.Build` | daemon/src/config.rs:78-93 | the builder's early-return checks give the same result as the build specification of its current settings |
| `Config.BuilderState.FirstUnset` | daemon/src/config.rs:80-91 | the first unset setting of a sequence: it is in the sequence, unset, and every setting before it is set; there is none exactly when all are set |
| `Config.BuildReportsFirstUnset` | daemon/src/config.rs:78-93 | build fails exactly when some setting in the order validator endpoint, log level, REST API endpoint is unset, and reports the first such setting's name |
| `Config.BuildRoundTrip` | daemon/src/config.rs:29-39 | a configuration is recovered from a builder holding its three accessor values, and a complete builder is recovered from the configuration it builds |
| `Config.OverlayThenBuild` | daemon/src/config.rs:59-93 | after `with_cli_args`, build succeeds exactly when each endpoint is given on the command line or held by the builder, with the command-line values winning and the level from the verbose count |
| `Config.CompleteBuilderAlwaysBuilds` | daemon/src/config.rs:59-93 | a builder with every setting present builds after `with_cli_args`, whatever the command line |
| `Config.RemainderAfterOverlay` | daemon/src/config.rs:61-74 | without `connect` the builder left behind fails with `validator_endpoint`; with `connect` but without `bind` a builder that held the first two settings fails with `rest_api_endpoint`; with both it is unchanged |
| `Config.ReachableConfigs` | daemon/src/config.rs:59-76 | from any builder, the command line can produce exactly the configurations whose log level is Warn, Info or Debug |
| `Config.DefaultWithoutArgs` | daemon/src/config.rs:48-76 | the default builder with no arguments builds `tcp://127.0.0.1:4004`, `Warn`, `127.0.0.1:8080` |
| `Config.BuildWithArgs` | daemon/src/config.rs:100-120 | default builder with `-C validator:4004 -b rest_api:8080` builds, with those two endpoints |
| `Config.BuildWithMissingArgs` | daemon/src/config.rs:122-136 | default builder with no arguments builds, with validator endpoint `tcp://127.0.0.1:4004` and REST API endpoint `127.0.0.1:8080` |
| `Config.MissingArgsExpectationAsWritten` | daemon/src/config.rs:134 | the no-arguments build succeeds but its validator endpoint is not `127.0.0.1:4004`, the value the test expects |

## Left out

- Command-line parsing by clap (`App`, `Arg`, `get_matches_from`, `value_of`, `occurrences_of`): its result is the input record `ArgMatches`.
- How `Level` and `ConfigurationError` display themselves, and how the daemon uses the configuration (logging setup, network endpoints).
- `Config.GridConfigBuilder.Build` does not empty the builder's fields: `build` takes the builder by value, so the `take()` calls in it empty a builder no caller can see again.
- The accessors return borrowed `&str` slices in the source; here they return the strings themselves.

## Findings

| source | as written | input that shows it | evidently intended | confidence | as-written member | corrected member |
|---|---|---|---|---|---|---|
| daemon/src/config.rs:134 | the missing-arguments test expects validator endpoint `127.0.0.1:4004` | default builder, no command-line arguments: the builder yields `tcp://127.0.0.1:4004` (line 51) | the test expects the default the builder supplies, `tcp://127.0.0.1:4004` | medium, not executed | `Config.MissingArgsExpectationAsWritten` | `Config.BuildWithMissingArgs` |
