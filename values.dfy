/**
 * The Ruby values a RackRabbit configuration stores, the names it stores
 * them under, and the errors it raises.
 */
module Values {
  import opened Wrappers

  /** Severities of Ruby's Logger, from least to most severe (DEBUG = 0 ... FATAL = 4). */
  datatype Severity = Debug | Info | Warn | Error | Fatal

  /**
   * A Ruby value, as far as the configuration can tell values apart.
   * Integer values are unbounded here; `IsFixnum` says which of them Ruby
   * represents as a Fixnum.
   */
  datatype Value =
    | Nil
    | Bool(b: bool)
    | Int(i: int)
    | Str(s: string)
    | Sym(name: string)
    | Proc(id: nat)                    // a block or a lambda
    | DefaultLogger(level: Severity)   // a Logger made by build_default_logger
    | Object(methods: set<string>, text: string)
      // any other object, known by the methods it responds to and by the text
      // its to_s returns; when it responds to to_path or to_str, they return
      // that text too, as a Pathname's do

  /** The default argument of every option accessor: passing it selects get mode. */
  const NotProvided: Value := Sym("not_provided")

  /** Ruby truthiness: everything except nil and false. */
  predicate Truthy(v: Value) {
    v != Nil && v != Bool(false)
  }

  /** The five logging methods a logger must respond to. */
  const LogMethods: set<string> := {"fatal", "error", "warn", "info", "debug"}

  /** `v.respond_to?(selector)`, for the methods the configuration asks about. */
  predicate RespondsTo(v: Value, selector: string) {
    match v
    case Proc(_) => selector == "call"
    case DefaultLogger(_) => selector in LogMethods
    case Object(methods, _) => selector in methods
    case _ => false
  }

  /**
   * Ruby's implicit conversion to a String (`StringValue`): a String is itself,
   * an object that responds to to_str is converted, anything else raises TypeError.
   */
  function StringText(v: Value): (r: Option<string>)
    ensures r.Some? <==> v.Str? || RespondsTo(v, "to_str")
  {
    match v
    case Str(s) => Some(s)
    case Object(methods, text) => if "to_str" in methods then Some(text) else None
    case _ => None
  }

  /**
   * How File.exists?, File.readable? and File.read take a path argument: a
   * String as it is, otherwise through to_path, otherwise through to_str; a
   * value with none of these raises TypeError.
   */
  function PathText(v: Value): (r: Option<string>)
    ensures r.Some? <==> v.Str? || RespondsTo(v, "to_path") || RespondsTo(v, "to_str")
    ensures StringText(v).Some? ==> r == StringText(v)
  {
    match v
    case Object(methods, text) => if "to_path" in methods then Some(text) else StringText(v)
    case _ => StringText(v)
  }

  /** Range of a Fixnum on a 64-bit Ruby before 2.4: 62 bits plus a sign. */
  const FixnumMin: int := -0x4000_0000_0000_0000
  const FixnumMax: int := 0x3FFF_FFFF_FFFF_FFFF

  /** `v.is_a?(Fixnum)`: an integer small enough not to be a Bignum. */
  predicate IsFixnum(v: Value) {
    v.Int? && FixnumMin <= v.i <= FixnumMax
  }

  /** The options declared with has_option, in declaration order. */
  datatype OptionName =
    | ConfigFile | RackFile | Queue | AppId | Workers | MinWorkers | MaxWorkers
    | PreloadApp | LogLevel | Logger

  /** The hooks declared with has_hook. */
  datatype HookName = BeforeFork | AfterFork

  /** Options and hooks share one hash, keyed by their names. */
  datatype Key = OptionKey(option: OptionName) | HookKey(hook: HookName)

  /** The `@options` hash. */
  type Options = map<Key, Value>

  /** `@options[k]`: a missing key reads as nil. */
  function Lookup(m: Options, k: Key): Value {
    if k in m then m[k] else Nil
  }

  /** What reload and validate raise. */
  datatype ConfigError =
    | ArgumentError(message: string)   // a failed validation check
    | TypeError                        // a path option that cannot be converted to a String
    | ReadError                        // the config script exists but cannot be read
    | ScriptError                      // the config script raised
}
