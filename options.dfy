/**
 * The argument handling around the lifecycle: how a queue constructor, create,
 * subscribe and quit normalise what they are given. Option records are maps
 * from key to a JavaScript-like value; only the keys the code inspects
 * (`type`, `noAck`) have a meaning here.
 */
module Options {
  import opened Lifecycle

  datatype Value = Undefined | Null | Bool(b: bool) | Num(n: int) | Str(s: string)

  type Options = map<string, Value>

  /** `v != null` is false exactly for null and undefined. */
  predicate IsNullish(v: Value)
  {
    v == Undefined || v == Null
  }

  /** The third argument of a queue constructor. */
  datatype QueueArg = NoArg | NullArg | OptionsArg(options: Options) | CallbackArg

  /**
   * The four constructor shapes reduced to (options, has a callback): a
   * function in third place is the callback and leaves the options empty, an
   * object in third place is the options, anything else leaves them empty.
   */
  function NormaliseQueueArgs(optionsOrCallback: QueueArg, callback: bool): (r: (Options, bool))
    ensures r.1 <==> optionsOrCallback.CallbackArg? || callback
    ensures r.0 == (if optionsOrCallback.OptionsArg? then optionsOrCallback.options else map[])
  {
    match optionsOrCallback
    case CallbackArg => (map[], true)
    case OptionsArg(o) => (o, callback)
    case NoArg => (map[], callback)
    case NullArg => (map[], callback)
  }

  /** Name-only, options-only, callback-only and both: once normalised, absent parts are the same as empty ones. */
  lemma CallShapesAgree(o: Options)
    ensures NormaliseQueueArgs(NoArg, false) == NormaliseQueueArgs(OptionsArg(map[]), false)
    ensures NormaliseQueueArgs(CallbackArg, false) == NormaliseQueueArgs(NoArg, true)
    ensures NormaliseQueueArgs(CallbackArg, true) == NormaliseQueueArgs(OptionsArg(map[]), true)
    ensures NormaliseQueueArgs(OptionsArg(o), true) == (o, true)
  {
  }

  /** A shallow copy of the options without the `type` key. */
  function SanitiseOptions(opts: Options): (r: Options)
    ensures "type" !in r
    ensures forall k :: k in r <==> k in opts && k != "type"
    ensures forall k :: k in r ==> r[k] == opts[k]
  {
    map k | k in opts && k != "type" :: opts[k]
  }

  /** The entries whose value is neither null nor undefined. */
  function CreateLogContext(obj: Options): (r: Options)
    ensures forall k :: k in r <==> k in obj && !IsNullish(obj[k])
    ensures forall k :: k in r ==> r[k] == obj[k] && !IsNullish(r[k])
  {
    map k | k in obj && !IsNullish(obj[k]) :: obj[k]
  }

  /** `{ type: 'queue', ...options }`: the caller's keys win, `type` defaults to "queue". */
  function WithDefaultType(options: Options): (r: Options)
    ensures r.Keys == options.Keys + {"type"}
    ensures r["type"] == (if "type" in options then options["type"] else Str("queue"))
    ensures forall k :: k in options ==> r[k] == options[k]
  {
    map["type" := Str("queue")] + options
  }

  /** The class create instantiates. */
  datatype Constructor = BaseQueueClass | QueueClass

  /** Only the string "queue" (given or defaulted) selects Queue; any other `type`, undefined included, selects BaseQueue. */
  function ConstructorFor(options: Options): (c: Constructor)
    ensures c == QueueClass <==> "type" !in options || options["type"] == Str("queue")
  {
    if WithDefaultType(options)["type"] == Str("queue") then QueueClass else BaseQueueClass
  }

  /** What create hands to the queue is the caller's options minus `type`: the default never leaks. */
  lemma CreatePassesOptionsOn(options: Options)
    ensures SanitiseOptions(WithDefaultType(options)) == SanitiseOptions(options)
  {
    var a, b := SanitiseOptions(WithDefaultType(options)), SanitiseOptions(options);
    assert forall k :: k in a <==> k in b;
  }

  /** `{ noAck: true, ...opts }`: noAck is true unless the caller supplies one; every caller key passes through. */
  function SubscribeOptions(opts: Options): (r: Options)
    ensures r.Keys == opts.Keys + {"noAck"}
    ensures r["noAck"] == (if "noAck" in opts then opts["noAck"] else Bool(true))
    ensures forall k :: k in opts ==> r[k] == opts[k]
  {
    map["noAck" := Bool(true)] + opts
  }

  /** The first argument of quit: absent, a reason text, or a boolean standing for `force`. */
  datatype ReasonArg = NoReason | ReasonText(text: string) | ReasonFlag(flag: bool)

  /** (reason, force) as quit sees them after moving a boolean first argument into `force`. */
  function NormaliseQuitArgs(reason: ReasonArg, force: Option<bool>): (r: (Option<string>, bool))
    ensures reason.ReasonFlag? ==> r == (None, reason.flag)
    ensures reason.ReasonText? ==> r == (Some(reason.text), force == Some(true))
    ensures reason.NoReason? ==> r == (None, force == Some(true))
  {
    match reason
    case ReasonFlag(f) => (None, f)
    case ReasonText(t) => (Some(t), force == Some(true))
    case NoReason => (None, force == Some(true))
  }
}
