/** Turning an exception into the hash that Cloud Logging stores as a
    structured payload (`Entry#create_exception_payload`), and the dispatch
    of the `Entry#payload=` setter that decides when to do so. */
module ExceptionPayloads {
  import opened RubyValues

  const ClassKey := Sym("class")
  const MessageKey := Sym("message")
  const BacktraceKey := Sym("backtrace")
  const CauseKey := Sym("cause")

  /** The four keys of every exception payload. */
  const PayloadKeys := {ClassKey, MessageKey, BacktraceKey, CauseKey}

  /** `exception.backtrace` as a Ruby value: an array of frame strings, or
      `nil` for an exception that was never raised. */
  function BacktraceValue(bt: Option<seq<string>>): (r: Value)
    ensures bt.None? ==> r == Nil
    ensures bt.Some? ==> r.Array? && |r.items| == |bt.value|
    ensures bt.Some? ==> forall i :: 0 <= i < |bt.value| ==> r.items[i] == Str(bt.value[i])
  {
    match bt
    case None => Nil
    case Some(frames) => Array(seq(|frames|, i requires 0 <= i < |frames| => Str(frames[i])))
  }

  /** `create_exception_payload(exception)`: class name, message and
      backtrace copied as they are; the cause converted recursively when it
      is an exception, and otherwise the exception object itself. */
  function ExceptionPayload(e: Exception): (r: map<Key, Value>)
    ensures r.Keys == PayloadKeys
    ensures r[ClassKey] == StrOrNil(e.className)
    ensures r[MessageKey] == Str(e.message)
    ensures r[BacktraceKey] == BacktraceValue(e.backtrace)
    ensures !e.cause.Exc? ==> r[CauseKey] == Exc(e)
  {
    map[
      ClassKey := StrOrNil(e.className),
      MessageKey := Str(e.message),
      BacktraceKey := BacktraceValue(e.backtrace),
      CauseKey := if e.cause.Exc? then Hash(ExceptionPayload(e.cause.exc)) else Exc(e)
    ]
  }

  /** The value `Entry#payload=` stores: an exception becomes its payload
      hash; every other value, a hash that holds exceptions included, is
      stored as it is. */
  function PayloadFor(v: Value): (r: Value)
    ensures v.Exc? ==> r.Hash? && r.entries.Keys == PayloadKeys
    ensures v.Exc? ==>
      && r.entries[ClassKey] == StrOrNil(v.exc.className)
      && r.entries[MessageKey] == Str(v.exc.message)
      && r.entries[BacktraceKey] == BacktraceValue(v.exc.backtrace)
    ensures v.Exc? ==> r == Hash(ExceptionPayload(v.exc))
    ensures !v.Exc? ==> r == v
    ensures !r.Exc?
  {
    if v.Exc? then Hash(ExceptionPayload(v.exc)) else v
  }

  /** Assigning the stored payload again changes nothing: the conversion
      applies only to an exception at the top level. */
  lemma PayloadForIdempotent(v: Value)
    ensures PayloadFor(PayloadFor(v)) == PayloadFor(v)
  {
  }

  /** The cause of an exception-valued cause is converted by the same rule. */
  lemma ExceptionCauseIsConverted(e: Exception)
    requires e.cause.Exc?
    ensures ExceptionPayload(e)[CauseKey] == Hash(ExceptionPayload(e.cause.exc))
  {
  }

  /** The number of consecutive exception-valued causes below `e`. */
  function CauseDepth(e: Exception): nat {
    if e.cause.Exc? then 1 + CauseDepth(e.cause.exc) else 0
  }

  /** The exception `i` steps down the cause chain of `e`. */
  function CauseAt(e: Exception, i: nat): (r: Exception)
    requires i <= CauseDepth(e)
    ensures i == CauseDepth(e) ==> !r.cause.Exc?
  {
    if i == 0 then e else CauseAt(e.cause.exc, i - 1)
  }

  /** How many times `:cause` can be followed from the hash `v` to another
      hash. */
  function PayloadDepth(v: Value): nat {
    if v.Hash? && CauseKey in v.entries && v.entries[CauseKey].Hash?
    then 1 + PayloadDepth(v.entries[CauseKey])
    else 0
  }

  /** The hash reached from `v` by following `:cause` `i` times, if any. */
  function NestedPayload(v: Value, i: nat): Option<map<Key, Value>> {
    if !v.Hash? then None
    else if i == 0 then Some(v.entries)
    else if CauseKey in v.entries then NestedPayload(v.entries[CauseKey], i - 1)
    else None
  }

  /** The nesting of `cause` hashes is exactly as deep as the run of
      exception-valued causes, so the recursion stops where that run ends. */
  lemma {:induction false} PayloadDepthIsCauseDepth(e: Exception)
    ensures PayloadDepth(Hash(ExceptionPayload(e))) == CauseDepth(e)
  {
    if e.cause.Exc? {
      PayloadDepthIsCauseDepth(e.cause.exc);
    }
  }

  /** Level `i` of the nested payload describes the exception `i` steps down
      the cause chain: each level carries that exception's own class name,
      message and backtrace. */
  lemma {:induction false} NestedPayloadIsCauseAt(e: Exception, i: nat)
    requires i <= CauseDepth(e)
    ensures NestedPayload(Hash(ExceptionPayload(e)), i) == Some(ExceptionPayload(CauseAt(e, i)))
  {
    if i == 0 {
      assert CauseAt(e, i) == e;
    } else {
      var c := e.cause.exc;
      NestedPayloadIsCauseAt(c, i - 1);
      assert ExceptionPayload(e)[CauseKey] == Hash(ExceptionPayload(c));
      assert CauseAt(e, i) == CauseAt(c, i - 1);
    }
  }

  /** At the bottom of the nesting, where the cause is not an exception
      (`nil` included), the `cause` entry holds that last exception itself
      and nothing further is converted. */
  lemma DeepestCauseHoldsItself(e: Exception)
    ensures var last := CauseAt(e, CauseDepth(e));
      && !last.cause.Exc?
      && NestedPayload(Hash(ExceptionPayload(e)), CauseDepth(e)) == Some(ExceptionPayload(last))
      && ExceptionPayload(last)[CauseKey] == Exc(last)
  {
    NestedPayloadIsCauseAt(e, CauseDepth(e));
  }
}
