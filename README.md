# RackRabbit::Config, modelled in Dafny

This project models the configuration object of rack-rabbit, `RackRabbit::Config`
in `lib/rack-rabbit/config.rb`, and proves properties about the model.

- **Options.** Ten options are declared with `has_option`: config_file, rack_file,
  queue, app_id, workers, min_workers, max_workers, preload_app, log_level and
  logger. Each has a dual-mode accessor over the `@options` hash:
  - Called with a value other than `:not_provided`, the accessor stores that value
    (set mode).
  - Called without a value, it returns the stored value (get mode). If the stored
    value is nil, it first stores the option's default; the logger's default is
    computed by `build_default_logger`.
- **Hooks.** `before_fork` and `after_fork` are declared with `has_hook`. Given a
  block, a hook stores it. Without a block, it calls the stored value when that
  value responds to `call`.
- **validate** is a chain of checks in a fixed order. The first check that fails
  raises `ArgumentError` with a fixed message.
- **reload** evaluates the config script named by config_file, if that file
  exists, and then validates.
- **Construction** stores the given options, or an empty hash, and reloads.

The model has six modules:

- `Wrappers` holds the option and outcome types.
- `Values` holds Ruby values, option and hook names, the options hash and
  `respond_to?`.
- `Levels` holds the log-level mapping of `build_default_logger`.
- `Resolution` holds the accessors as functions. `Resolved` is a declarative
  reference for what an option resolves to. `Get` is the memoizing read.
- `Validation` holds the check chain, what a run of validate reads, and the
  state it leaves.
- `RackRabbit` holds the `Config` class. Its methods update the `options` field
  in place, and each is proved against the pure functions above.

Two ghost logs sit on the object:

- `Realized` records every default that was stored, in order. This is how the
  model states that a default runs once.
- `Calls` records every call a hook made to a stored block.

Behaviour of the code that the model keeps:

- **Explicit nil.** The accessor tests `@options[name].nil?` (line 27 of
  `lib/rack-rabbit/config.rb`). An option explicitly set to nil is therefore
  filled from its default on the next read (`Resolution.SetNilIsReResolved`).
- **The sentinel.** The sentinel is the real symbol `:not_provided`, so passing
  that symbol selects get mode.
- **Paths.** `File.readable?`, `File.exists?` and `File.read` take a String, or
  an object that responds to `to_path` or `to_str`, such as a `Pathname`. Any
  other value raises `TypeError`. A `Pathname` rack_file is therefore checked
  like its path. A `Pathname` config_file is checked and read, but
  `instance_eval` takes its file name only as a String (or an object with
  `to_str`), so it raises `TypeError` before the script runs
  (`RackRabbit.PathOnlyConfigFileRunsNoScript`).

`Fixnum` is an integer in [-2^62, 2^62 - 1], as on a 64-bit Ruby before 2.4.
Ruby 2.4 merged `Fixnum` into `Integer`, and a version from 3.2 on has no
`Fixnum` constant at all.

The check "min_workers > max_workers" (line 76) can never fire.
`Validation.MinAboveMaxNeverRaised` proves this, and the method keeps the
branch, as the source does.

## Model

| member | source | states |
|---|---|---|
| Levels.Downcase | lib/rack-rabbit/config.rb:86 | The lower-cased text has the same length, and each character is the lower-case form of the character at the same place. |
| Levels.Text | lib/rack-rabbit/config.rb:86 | The `to_s` text of a String, a Symbol or another object. nil, booleans, integers, procs and loggers have none that can spell a level name. |
| Levels.LevelFor | lib/rack-rabbit/config.rb:86-94 | The `case` of build_default_logger: the severity the lower-cased text of log_level names, and INFO otherwise. Its meaning is stated by `Levels.LevelForSpelled`. |
| Levels.NamedPicks | lib/rack-rabbit/config.rb:86-94 | The `case` picks a severity exactly when the name is that severity's, and picks INFO for any name that matches none of the five. |
| Levels.DowncaseMatches | lib/rack-rabbit/config.rb:86-91 | A string lower-cases to a lower-case name exactly when it spells that name, ignoring case. |
| Levels.LevelIgnoresCase | lib/rack-rabbit/config.rb:86-94 | The level chosen does not depend on letter case, nor on whether log_level is a String or a Symbol. |
| Levels.LevelForSpelled | lib/rack-rabbit/config.rb:86-94 | Each severity is chosen exactly when log_level spells its name, ignoring case. INFO is also chosen when log_level spells none of the five names, which covers nil, numbers and other objects. |
| Resolution.Get | lib/rack-rabbit/config.rb:24-35 | Get mode returns what the option resolves to, and leaves it stored under the option's key. A non-nil stored value is returned with the hash unchanged and no default run. The option's own default runs exactly when its stored value is nil. |
| Resolution.DefaultFor | lib/rack-rabbit/config.rb:51-60 | Each option's declared default: nil, config.ru, rack-rabbit twice, 2, 1, 100, false, :info, and the logger built by build_default_logger. |
| Resolution.Resolved | lib/rack-rabbit/config.rb:27-33 | What an option reads as, stated without the hash updates: the stored value unless it is nil, otherwise its default. The default logger takes the level that log_level resolves to. `Resolution.Get` is proved to return it. |
| Resolution.Accessor | lib/rack-rabbit/config.rb:24-35 | The accessor: set mode for any argument other than :not_provided, and `Resolution.Get` otherwise. Its properties are the Set lemmas below. |
| Resolution.GetFrame | lib/rack-rabbit/config.rb:27-33 | A read changes only the keys of the options whose defaults it ran. Those options were nil before the read and now hold what they resolved to. Every other key is unchanged. |
| Resolution.GetPreservesResolution | lib/rack-rabbit/config.rb:24-35 | Reading any option, the logger included, leaves every option resolving to what it did before. |
| Resolution.GetIsMemoized | lib/rack-rabbit/config.rb:27-34 | A second read returns the same value and leaves the hash unchanged. It runs a default again only when the value read was nil, which is config_file's default. |
| Resolution.SetStoresVerbatim | lib/rack-rabbit/config.rb:25-26 | Set mode stores and returns the argument as given and runs no default. Every other key is left as it was. |
| Resolution.SetBypassesDefault | lib/rack-rabbit/config.rb:25-28 | After a non-nil set, get mode returns that value, changes nothing and never runs the default. |
| Resolution.SetNilIsReResolved | lib/rack-rabbit/config.rb:25-33 | After an explicit set to nil, the next read runs the default and returns what the option would resolve to had it never been set. |
| Resolution.SetKeepsOtherResolutions | lib/rack-rabbit/config.rb:24-35 | Setting one option leaves every other option resolving as before. The one exception is an unset logger after a log_level set. A logger already stored keeps its level whatever log_level is set to later. |
| Resolution.LoggerFollowsLogLevel | lib/rack-rabbit/config.rb:59-60 | An unset logger resolves to a default logger at the level of the log_level that was set. A nil log_level falls back to :info. |
| Validation.FirstFailure | lib/rack-rabbit/config.rb:69-78 | Walking a chain of checks passes exactly when every check holds. Otherwise it raises the failure of a check that does not hold and before which every check holds. |
| Validation.Verdict | lib/rack-rabbit/config.rb:69-78 | The nine-step chain of validate, in source order, with its messages. `Validation.VerdictIsFirstFailure` and `Validation.PassIffAcceptable` relate it to the list of checks and to a definition without order. |
| Validation.VerdictIsFirstFailure | lib/rack-rabbit/config.rb:69-78 | validate's outcome is the failure of the first check, in source order, that does not hold. |
| Validation.PassIffAcceptable | lib/rack-rabbit/config.rb:69-78 | validate passes exactly when rack_file is a String or path-like object (to_path or to_str) whose path is readable, the three worker counts are Fixnums with min_workers <= workers <= max_workers, and the logger responds to the five log methods. |
| Validation.MinAboveMaxNeverRaised | lib/rack-rabbit/config.rb:74-76 | "invalid min_workers > max_workers" is never raised. |
| Validation.ReadsPreserveResolution | lib/rack-rabbit/config.rb:70-77 | The reads validate makes leave every option resolving to what it did before. |
| Validation.ValidationRun | lib/rack-rabbit/config.rb:69-78 | A validate run: the reads it makes up to the check that stops it, the defaults those reads ran, and the verdict on the resolved values. |
| Validation.ValidationPreservesResolution | lib/rack-rabbit/config.rb:69-78 | A run of validate, however it ends, leaves every option resolving to what it did before. |
| Validation.DefaultsPass | lib/rack-rabbit/config.rb:51-60 | With the five validated options unset, their defaults (config.ru, 2, 1, 100 and the default logger) pass validation exactly when config.ru is readable. |
| RackRabbit.ReloadWithoutScript | lib/rack-rabbit/config.rb:14-17 | When config_file is nil, false, or names a file that does not exist, reload runs no script. Its outcome is validate's verdict on the options as they stand, and every option still resolves as before. |
| RackRabbit.Perform | lib/rack-rabbit/config.rb:15 | One statement of a config script: an accessor call, or a hook registration that stores the block. |
| RackRabbit.Exec | lib/rack-rabbit/config.rb:15 | The statements of a config script run in order, each against the hash the previous one left. |
| RackRabbit.Load | lib/rack-rabbit/config.rb:15 | The first line of reload: read config_file, and run its script when it is truthy and names an existing file. Each way that line can raise is an outcome. |
| RackRabbit.ReloadRun | lib/rack-rabbit/config.rb:14-17 | reload: the load, then validate on the hash it leaves, unless the load raised. |
| RackRabbit.FreshConfigIsValid | lib/rack-rabbit/config.rb:9-17 | A configuration created without options is valid exactly when config.ru is readable. |
| RackRabbit.ScriptSetSticks | lib/rack-rabbit/config.rb:14-16 | A non-nil value that the config script sets last for an option is what that option resolves to after reload, whatever validate decides. |
| RackRabbit.ReloadWithScript | lib/rack-rabbit/config.rb:14-16 | When config_file is a String naming an existing, readable file whose script does not raise, reload's outcome is validate's verdict on the options as the script leaves them. |
| RackRabbit.PathOnlyConfigFileRunsNoScript | lib/rack-rabbit/config.rb:15 | A config_file that responds to to_path but not to_str, naming a readable file, makes reload raise TypeError without running the script or validating. |
| RackRabbit.Config.constructor | lib/rack-rabbit/config.rb:9-10 | The options start as the given hash, or as an empty hash when none is given. |
| RackRabbit.Config.Create | lib/rack-rabbit/config.rb:9-12 | Construction gives a new object whose options, defaults realized and outcome are those of reload run on the initial hash. |
| RackRabbit.Config.Access | lib/rack-rabbit/config.rb:24-35 | The accessor leaves the hash and returns the value of the set or get mode its argument selects. It appends the defaults it ran to the log and calls no hook. |
| RackRabbit.Config.BuildDefaultLogger | lib/rack-rabbit/config.rb:80-96 | The logger is built at the level that the value read through the log_level accessor names. That read memoizes log_level's default. |
| RackRabbit.Config.Hook | lib/rack-rabbit/config.rb:40-46 | Given a block, the hook stores it, returns it and calls nothing. Without a block, it leaves the hash alone. It calls the stored value with exactly the given arguments when that value responds to call, and otherwise returns nil. |
| RackRabbit.Config.ReadNext | lib/rack-rabbit/config.rb:70-77 | Reading the next option validate needs returns what it resolved to before validation began, and advances the hash by exactly that read. |
| RackRabbit.Config.Validate | lib/rack-rabbit/config.rb:69-78 | The hash, the defaults realized and the outcome are those of a validate run on the hash as it stood. |
| RackRabbit.Config.ValidateWorkers | lib/rack-rabbit/config.rb:71-76 | Once rack_file has passed, the worker checks and everything after them end as a validate run does. |
| RackRabbit.Config.ValidateLogger | lib/rack-rabbit/config.rb:77 | Once every worker check has passed, the logger check ends as a validate run does. |
| RackRabbit.Config.RunScript | lib/rack-rabbit/config.rb:15 | The script's statements run in order against the hash. |
| RackRabbit.Config.LoadConfigFile | lib/rack-rabbit/config.rb:15 | The hash, the defaults realized and the outcome are those of the load model: the script runs only when config_file resolves to a truthy String, or an object with to_str, naming an existing file. A value that cannot be taken as a path raises TypeError, and so does a to_path-only object naming a readable file. An unreadable file or a raising script ends the reload. |
| RackRabbit.Config.Reload | lib/rack-rabbit/config.rb:14-17 | reload loads the script and then validates, unless loading raised. The hash, the defaults realized and the outcome are those of the reload model. |

## Left out

- Logger construction is reduced to the level it picks. The `$stdout` target,
  the formatter with its pid and SERVER/worker tag, and the process ids are I/O
  and are not modelled.
- `instance_eval` of the config file is modelled as the option sets and hook
  registrations the script performs, plus whether it raises after them. Arbitrary
  Ruby in a script cannot be modelled.
- File system queries are parameters. `File.exists?`, `File.readable?` and
  `File.read` become the sets of existing and readable paths and a map from paths
  to scripts. A file that exists but cannot be read raises a read error.
- A hook block is a proc identified by a number, and calling it is a parameter of
  the object (`Blocks`). What a block does to the configuration when called is not
  modelled.
- The metaprogramming that generates the accessors (`define_method`, `to_sym`) is
  replaced by the fixed enumeration of the ten options and two hooks. Options and
  hooks outside that list are not modelled.
- `String#downcase` is modelled for ASCII letters only. Ruby's Unicode
  lower-casing chooses the same level for every input. The only non-ASCII
  characters that lower-case to ASCII letters are the Kelvin sign, which becomes
  `k`, and `İ`, which becomes `i` followed by a combining dot. Neither can
  complete one of the five level names.
- `to_s` is modelled as text for Strings, Symbols and other objects. The text
  of nil, booleans, integers, procs and loggers never spells a level name, so
  they carry no text. An object is assumed to return the same text from `to_s`,
  `to_path` and `to_str`, as a `Pathname` does.
- RackRabbit.Config.constructor: `@options = options` keeps the caller's hash,
  so the caller sees every later write and can change the options behind the
  object. The model copies the hash as a value, so that aliasing is not
  modelled.
- Ruby exceptions are outcome values: `ArgumentError` with its message,
  `TypeError`, a read error and an error raised by the script.
- RackRabbit.Config.Validate: reads each option once. The source calls the
  rack_file accessor again for the message on line 70, and the worker accessors
  again for the comparisons on lines 74-76. By then every one of those options
  holds a non-nil memoized value, so a second read returns it and changes nothing
  (`Resolution.GetIsMemoized`).
