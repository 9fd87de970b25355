/** The daemon's configuration: a builder that starts from defaults, lays the
    command-line values over them and checks that every setting is present
    before producing the immutable configuration the daemon runs with. */
module Config {
  import opened Wrappers

  /** The log crate's levels, from quietest to most verbose. */
  datatype Level = Error | Warn | Info | Debug | Trace {
    /** The level's discriminant in the log crate (Error = 1 ... Trace = 5);
        a larger rank logs more. */
    function Rank(): nat {
      match this
      case Error => 1
      case Warn => 2
      case Info => 3
      case Debug => 4
      case Trace => 5
    }
  }

  datatype ConfigurationError = MissingValue(field: string)

  /** The parts of the parsed command line the builder reads: the values of
      `connect` and `bind`, and how many times `verbose` occurred. */
  datatype ArgMatches = ArgMatches(connect: Option<string>, bind: Option<string>, verbose: nat)

  /** The finished configuration; its settings are read through the three accessors. */
  datatype GridConfig = GridConfig(validatorEndpoint: string, logLevel: Level, restApiEndpoint: string) {
    function ValidatorEndpoint(): string { validatorEndpoint }
    function LogLevel(): Level { logLevel }
    function RestApiEndpoint(): string { restApiEndpoint }
  }

  const DefaultValidatorEndpoint: string := "tcp://127.0.0.1:4004"
  const DefaultLogLevel: Level := Warn
  const DefaultRestApiEndpoint: string := "127.0.0.1:8080"

  /** The log level selected by the number of `verbose` occurrences. */
  function LevelFromVerbose(occurrences: nat): (l: Level)
    ensures occurrences == 0 <==> l == Warn
    ensures occurrences == 1 <==> l == Info
    ensures occurrences >= 2 <==> l == Debug
  {
    match occurrences
    case 0 => Warn
    case 1 => Info
    case _ => Debug
  }

  /** The levels some number of `verbose` occurrences selects. */
  predicate SelectableByVerbose(l: Level) {
    l == Warn || l == Info || l == Debug
  }

  /** The fewest `verbose` occurrences that select `l`. */
  function VerboseCountFor(l: Level): (n: nat)
    requires SelectableByVerbose(l)
    ensures LevelFromVerbose(n) == l
    ensures forall k: nat :: LevelFromVerbose(k) == l ==> n <= k
  {
    match l
    case Warn => 0
    case Info => 1
    case Debug => 2
  }

  /** Every level the command line can select is one of Warn, Info, Debug,
      and more occurrences never select a quieter level. */
  lemma LevelFromVerboseMonotone(n: nat, k: nat)
    requires n <= k
    ensures SelectableByVerbose(LevelFromVerbose(n))
    ensures LevelFromVerbose(n).Rank() <= LevelFromVerbose(k).Rank()
  {
  }

  /** The three settings, in the order `build` checks them. */
  datatype Field = ValidatorEndpointField | LogLevelField | RestApiEndpointField {
    /** The name a missing-value error reports for this setting. */
    function Name(): string {
      match this
      case ValidatorEndpointField => "validator_endpoint"
      case LogLevelField => "log_level"
      case RestApiEndpointField => "rest_api_endpoint"
    }
  }

  const BuildOrder: seq<Field> := [ValidatorEndpointField, LogLevelField, RestApiEndpointField]

  /** What remains of `o` after a `take()` that runs exactly when `used` holds. */
  function Taken<T>(used: bool, o: Option<T>): Option<T> {
    if used then None else o
  }

  /** The value of a builder: each setting may be unset. */
  datatype BuilderState = BuilderState(validatorEndpoint: Option<string>, logLevel: Option<Level>, restApiEndpoint: Option<string>) {

    predicate IsComplete() {
      validatorEndpoint.Some? && logLevel.Some? && restApiEndpoint.Some?
    }

    predicate IsSet(f: Field) {
      match f
      case ValidatorEndpointField => validatorEndpoint.Some?
      case LogLevelField => logLevel.Some?
      case RestApiEndpointField => restApiEndpoint.Some?
    }

    /** The first setting of `fields` that is unset, if any. */
    function FirstUnset(fields: seq<Field>): (r: Option<Field>)
      ensures r.Some? ==> r.value in fields && !IsSet(r.value)
      ensures r.Some? ==> exists i :: 0 <= i < |fields| && fields[i] == r.value && forall j :: 0 <= j < i ==> IsSet(fields[j])
      ensures r.None? <==> forall f :: f in fields ==> IsSet(f)
    {
      if fields == [] then None
      else if !IsSet(fields[0]) then Some(fields[0])
      else
        var rest := FirstUnset(fields[1..]);
        assert rest.Some? ==> exists i :: 0 <= i < |fields| && fields[i] == rest.value && forall j :: 0 <= j < i ==> IsSet(fields[j]) by {
          if rest.Some? {
            var i :| 0 <= i < |fields[1..]| && fields[1..][i] == rest.value && forall j :: 0 <= j < i ==> IsSet(fields[1..][j]);
            forall j | 0 <= j < i + 1
              ensures IsSet(fields[j])
            {
              if j > 0 { assert fields[j] == fields[1..][j - 1]; }
            }
            assert fields[i + 1] == rest.value;
          }
        }
        rest
    }

    /** The builder that `with_cli_args` returns: a command-line value that is
        present wins, otherwise the builder's own value is used; the log level
        always comes from the `verbose` count. */
    function Overlay(matches: ArgMatches): (r: BuilderState)
      ensures matches.connect.Some? ==> r.validatorEndpoint == matches.connect
      ensures matches.connect.None? ==> r.validatorEndpoint == validatorEndpoint
      ensures r.logLevel == Some(LevelFromVerbose(matches.verbose))
      ensures matches.bind.Some? ==> r.restApiEndpoint == matches.bind
      ensures matches.bind.None? ==> r.restApiEndpoint == restApiEndpoint
    {
      BuilderState(
        matches.connect.Or(validatorEndpoint),
        Some(LevelFromVerbose(matches.verbose)).Or(logLevel),
        matches.bind.Or(restApiEndpoint))
    }

    /** What `with_cli_args` leaves in the builder it was called on: a fallback
        it used has been moved out, every other setting is untouched. */
    function Remainder(matches: ArgMatches): (r: BuilderState)
      ensures matches.connect.None? ==> r.validatorEndpoint == None
      ensures matches.connect.Some? ==> r.validatorEndpoint == validatorEndpoint
      ensures r.logLevel == logLevel
      ensures matches.bind.None? ==> r.restApiEndpoint == None
      ensures matches.bind.Some? ==> r.restApiEndpoint == restApiEndpoint
    {
      BuilderState(
        Taken(matches.connect.None?, validatorEndpoint),
        Taken(Some(LevelFromVerbose(matches.verbose)).None?, logLevel),
        Taken(matches.bind.None?, restApiEndpoint))
    }

    /** `build`: the configuration when every setting is present, otherwise the
        error naming the first missing one in the order validator endpoint,
        log level, REST API endpoint. */
    function Build(): (r: Result<GridConfig, ConfigurationError>)
      ensures r.Success? <==> IsComplete()
      ensures r.Success? ==>
        && r.value.ValidatorEndpoint() == validatorEndpoint.value
        && r.value.LogLevel() == logLevel.value
        && r.value.RestApiEndpoint() == restApiEndpoint.value
      ensures validatorEndpoint.None? ==>
        r == Failure(MissingValue(ValidatorEndpointField.Name()))
      ensures validatorEndpoint.Some? && logLevel.None? ==>
        r == Failure(MissingValue(LogLevelField.Name()))
      ensures validatorEndpoint.Some? && logLevel.Some? && restApiEndpoint.None? ==>
        r == Failure(MissingValue(RestApiEndpointField.Name()))
    {
      var endpoint :- validatorEndpoint.ToResult(MissingValue(ValidatorEndpointField.Name()));
      var level :- logLevel.ToResult(MissingValue(LogLevelField.Name()));
      var restApi :- restApiEndpoint.ToResult(MissingValue(RestApiEndpointField.Name()));
      Success(GridConfig(endpoint, level, restApi))
    }
  }

  /** `GridConfigBuilder::default()` as a value. */
  function DefaultState(): (b: BuilderState)
    ensures b.IsComplete()
  {
    BuilderState(Some(DefaultValidatorEndpoint), Some(DefaultLogLevel), Some(DefaultRestApiEndpoint))
  }

  /** The complete builder holding exactly the settings of `c`. */
  function FromConfig(c: GridConfig): (b: BuilderState)
    ensures b.IsComplete()
  {
    BuilderState(Some(c.ValidatorEndpoint()), Some(c.LogLevel()), Some(c.RestApiEndpoint()))
  }

  /** The builder that holds all three settings: `with_cli_args` changes it in
      place (taking out the fallbacks it uses) and returns a new builder. */
  class GridConfigBuilder {
    var validatorEndpoint: Option<string>
    var logLevel: Option<Level>
    var restApiEndpoint: Option<string>

    function State(): BuilderState
      reads this
    {
      BuilderState(validatorEndpoint, logLevel, restApiEndpoint)
    }

    /** A builder holding the given settings (`Self { .. }`). */
    constructor (validatorEndpoint: Option<string>, logLevel: Option<Level>, restApiEndpoint: Option<string>)
      ensures State() == BuilderState(validatorEndpoint, logLevel, restApiEndpoint)
    {
      this.validatorEndpoint := validatorEndpoint;
      this.logLevel := logLevel;
      this.restApiEndpoint := restApiEndpoint;
    }

    /** `GridConfigBuilder::default()`. */
    constructor Default()
      ensures validatorEndpoint == Some("tcp://127.0.0.1:4004")
      ensures logLevel == Some(Warn)
      ensures restApiEndpoint == Some("127.0.0.1:8080")
      ensures State() == DefaultState()
    {
      validatorEndpoint := Some(DefaultValidatorEndpoint);
      logLevel := Some(DefaultLogLevel);
      restApiEndpoint := Some(DefaultRestApiEndpoint);
    }

    /** `with_cli_args`: returns the overlaid builder; in this builder, an
        endpoint whose command-line value is absent is taken (left unset),
        everything else is left as it was. */
    method WithCliArgs(matches: ArgMatches) returns (r: GridConfigBuilder)
      modifies this
      ensures fresh(r)
      ensures r.State() == old(State()).Overlay(matches)
      ensures State() == old(State()).Remainder(matches)
    {
      var endpoint: Option<string>;
      if matches.connect.Some? {
        endpoint := matches.connect;
      } else {
        endpoint := validatorEndpoint;
        validatorEndpoint := None;
      }
      // The verbose count always selects a level, so the fallback that
      // would take this builder's log level never runs.
      var level := Some(LevelFromVerbose(matches.verbose));
      var restApi: Option<string>;
      if matches.bind.Some? {
        restApi := matches.bind;
      } else {
        restApi := restApiEndpoint;
        restApiEndpoint := None;
      }
      r := new GridConfigBuilder(endpoint, level, restApi);
    }

    /** `build`: checks the settings in order and stops at the first missing one. */
    method Build() returns (r: Result<GridConfig, ConfigurationError>)
      ensures r == State().Build()
    {
      if validatorEndpoint.None? {
        return Failure(MissingValue(ValidatorEndpointField.Name()));
      }
      if logLevel.None? {
        return Failure(MissingValue(LogLevelField.Name()));
      }
      if restApiEndpoint.None? {
        return Failure(MissingValue(RestApiEndpointField.Name()));
      }
      r := Success(GridConfig(validatorEndpoint.value, logLevel.value, restApiEndpoint.value));
    }
  }

  /** The missing-value error `build` reports is the first unset setting in
      `BuildOrder`, and `build` succeeds exactly when no setting is unset. */
  lemma BuildReportsFirstUnset(b: BuilderState)
    ensures b.Build().Success? <==> b.FirstUnset(BuildOrder).None?
    ensures b.Build().Failure? ==> b.Build().error == MissingValue(b.FirstUnset(BuildOrder).value.Name())
  {
    var rest := [LogLevelField, RestApiEndpointField];
    assert BuildOrder[1..] == rest && rest[1..] == [RestApiEndpointField];
    assert b.FirstUnset([RestApiEndpointField]) ==
      if b.restApiEndpoint.None? then Some(RestApiEndpointField) else None;
    assert b.FirstUnset(rest) ==
      if b.logLevel.None? then Some(LogLevelField) else b.FirstUnset([RestApiEndpointField]);
    assert b.FirstUnset(BuildOrder) ==
      if b.validatorEndpoint.None? then Some(ValidatorEndpointField) else b.FirstUnset(rest);
  }

  /** A configuration and the complete builder holding its settings determine
      each other through `build`. */
  lemma BuildRoundTrip(c: GridConfig, b: BuilderState)
    ensures FromConfig(c).Build() == Success(c)
    ensures b.IsComplete() ==> FromConfig(b.Build().value) == b
  {
  }

  /** After `with_cli_args`, `build` succeeds exactly when each endpoint is
      given on the command line or already held by the builder; the log level
      the builder held plays no part. */
  lemma OverlayThenBuild(b: BuilderState, m: ArgMatches)
    ensures b.Overlay(m).Build().Success? <==>
      (m.connect.Some? || b.validatorEndpoint.Some?) && (m.bind.Some? || b.restApiEndpoint.Some?)
    ensures b.Overlay(m).Build().Success? ==>
      && b.Overlay(m).Build().value.ValidatorEndpoint() == m.connect.Or(b.validatorEndpoint).value
      && b.Overlay(m).Build().value.LogLevel() == LevelFromVerbose(m.verbose)
      && b.Overlay(m).Build().value.RestApiEndpoint() == m.bind.Or(b.restApiEndpoint).value
  {
  }

  /** A complete builder builds whatever the command line says. */
  lemma CompleteBuilderAlwaysBuilds(b: BuilderState, m: ArgMatches)
    requires b.IsComplete()
    ensures b.Overlay(m).Build().Success?
  {
    OverlayThenBuild(b, m);
  }

  /** What is left behind by `with_cli_args`: when the `connect` value is
      absent the leftover builder can no longer build, and when both endpoint
      values are present it is the builder as it was. */
  lemma RemainderAfterOverlay(b: BuilderState, m: ArgMatches)
    ensures m.connect.None? ==> b.Remainder(m).Build() == Failure(MissingValue(ValidatorEndpointField.Name()))
    ensures m.connect.Some? && m.bind.None? && b.validatorEndpoint.Some? && b.logLevel.Some? ==>
      b.Remainder(m).Build() == Failure(MissingValue(RestApiEndpointField.Name()))
    ensures m.connect.Some? && m.bind.Some? ==> b.Remainder(m) == b
  {
  }

  /** Whatever the builder holds, the command line can produce exactly the
      configurations whose log level is Warn, Info or Debug. */
  lemma ReachableConfigs(b: BuilderState, c: GridConfig)
    ensures (exists m :: b.Overlay(m).Build() == Success(c)) <==> SelectableByVerbose(c.LogLevel())
  {
    if SelectableByVerbose(c.LogLevel()) {
      var m := ArgMatches(Some(c.ValidatorEndpoint()), Some(c.RestApiEndpoint()), VerboseCountFor(c.LogLevel()));
      assert b.Overlay(m).Build() == Success(c);
    }
    if exists m :: b.Overlay(m).Build() == Success(c) {
      var m :| b.Overlay(m).Build() == Success(c);
      LevelFromVerboseMonotone(m.verbose, m.verbose);
    }
  }

  /** The default builder with no command-line arguments builds the default
      settings; the validator endpoint keeps its `tcp://` scheme. */
  lemma DefaultWithoutArgs()
    ensures DefaultState().Overlay(ArgMatches(None, None, 0)).Build()
      == Success(GridConfig("tcp://127.0.0.1:4004", Warn, "127.0.0.1:8080"))
  {
  }

  /** The validator endpoint the missing-arguments scenario expects,
      `127.0.0.1:4004`, is not the one the default builder produces. */
  lemma MissingArgsExpectationAsWritten()
    ensures DefaultState().Overlay(ArgMatches(None, None, 0)).Build().Success?
    ensures DefaultState().Overlay(ArgMatches(None, None, 0)).Build().value.ValidatorEndpoint() != "127.0.0.1:4004"
  {
  }

  /** The scenario that gives both endpoints on the command line. */
  method BuildWithArgs() returns (config: GridConfig)
    ensures config.ValidatorEndpoint() == "validator:4004"
    ensures config.RestApiEndpoint() == "rest_api:8080"
  {
    var builder := new GridConfigBuilder.Default();
    var overlaid := builder.WithCliArgs(ArgMatches(Some("validator:4004"), Some("rest_api:8080"), 0));
    var result := overlaid.Build();
    config := result.value;
  }

  /** The scenario that gives no command-line arguments: the defaults come through. */
  method BuildWithMissingArgs() returns (config: GridConfig)
    ensures config.ValidatorEndpoint() == "tcp://127.0.0.1:4004"
    ensures config.RestApiEndpoint() == "127.0.0.1:8080"
  {
    var builder := new GridConfigBuilder.Default();
    var overlaid := builder.WithCliArgs(ArgMatches(None, None, 0));
    var result := overlaid.Build();
    config := result.value;
  }
}
