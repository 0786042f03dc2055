/** The base class of node-local maintenance activities and the reboot kinds an
    activity can ask for.

    An activity object keeps its state as Python instance attributes; that
    attribute dictionary (`__dict__`) is what the owning request serialises
    between runs of the agent, minus the transient logger. Here the dictionary
    is the field `attrs` of class `Activity`, a map from attribute name to value.
 */
module MaintenanceActivity {

  /** The two kinds of reboot an activity may request. */
  datatype RebootType = Warm | Cold
  {
    /** The enumeration value of the member (`RebootType.X.value`). */
    function EnumValue(): (n: int)
      ensures 1 <= n <= 2
    {
      match this
      case Warm => 1
      case Cold => 2
    }
  }

  /** Outcome of looking up an enumeration member by value (`RebootType(n)`). */
  datatype EnumLookup = Member(kind: RebootType) | ValueError(badValue: int)

  /** `RebootType(n)`: the member whose value is `n`, or a ValueError. */
  function RebootTypeOf(n: int): (r: EnumLookup)
    ensures r.Member? <==> n == 1 || n == 2
    ensures r.Member? ==> r.kind.EnumValue() == n
    ensures r.ValueError? ==> r.badValue == n
  {
    if n == 1 then Member(Warm)
    else if n == 2 then Member(Cold)
    else ValueError(n)
  }

  /** WARM is 1 and COLD is 2; every member is found again from its value,
      and distinct members have distinct values. */
  lemma RebootTypeRoundTrip(t: RebootType, u: RebootType)
    ensures Warm.EnumValue() == 1 && Cold.EnumValue() == 2
    ensures RebootTypeOf(t.EnumValue()) == Member(t)
    ensures t != u ==> t.EnumValue() != u.EnumValue()
  {
  }

  /** The values an activity attribute can hold. Loggers and the request
      backpointer are opaque: only their identity matters here. */
  datatype Value =
    | None
    | Bool(b: bool)
    | Int(i: int)
    | Float(f: real)
    | Text(s: string)
    | Reboot(kind: RebootType)
    | RequestRef(requestId: nat)
    | Logger(handle: nat)

  /** Attribute name under which the transient logger is stored. */
  const LogKey: string := "log"

  /** The outcome attributes the class declares with a default of None. */
  const ClassDefaults: set<string> :=
    {"stdout", "stderr", "returncode", "duration", "request", "reboot_needed"}

  /** Outcome of reading an attribute (`activity.name`). */
  datatype AttrResult = Found(value: Value) | AttributeError(name: string)

  /** Python attribute lookup on an activity whose instance dictionary is
      `attrs`: an instance attribute wins; otherwise one of the class-level
      outcome defaults reads as None; any other data attribute name raises
      AttributeError. Methods, the docstring and other names every Python
      class defines are not modelled. */
  function Lookup(attrs: map<string, Value>, name: string): (r: AttrResult)
    ensures r.Found? <==> name in attrs || name in ClassDefaults
    ensures name in attrs ==> r == Found(attrs[name])
    ensures name !in attrs && name in ClassDefaults ==> r.value == None
    ensures r.AttributeError? ==> r.name == name
  {
    if name in attrs then Found(attrs[name])
    else if name in ClassDefaults then Found(None)
    else AttributeError(name)
  }

  /** The serialisable state (`__getstate__`): every instance attribute except
      the logger, with its value. Class defaults that were never assigned are
      not instance attributes and so are not part of it. */
  function State(attrs: map<string, Value>): (s: map<string, Value>)
    ensures LogKey !in s
    ensures forall k :: k in s <==> k in attrs && k != LogKey
    ensures forall k :: k in s ==> s[k] == attrs[k]
  {
    map k | k in attrs && k != LogKey :: attrs[k]
  }

  /** Storing a logger never shows in the serialisable state. */
  lemma StateIgnoresLogger(attrs: map<string, Value>, log: Value)
    ensures State(attrs[LogKey := log]) == State(attrs)
  {
  }

  /** Serialising twice strips nothing more than serialising once. */
  lemma StateIdempotent(attrs: map<string, Value>)
    ensures State(State(attrs)) == State(attrs)
  {
  }

  /** An activity restored from its serialised state reads every attribute
      but the logger exactly as the original did, the request backpointer
      included; the logger is gone until it is set up again. */
  lemma LookupAfterSerialising(attrs: map<string, Value>, name: string)
    ensures name != LogKey ==> Lookup(State(attrs), name) == Lookup(attrs, name)
    ensures Lookup(State(attrs), LogKey) == AttributeError(LogKey)
  {
  }

  /** The calls an activity receives from its owner. `SetAttrCall` stands for
      any assignment made from outside or by a subclass (the request sets the
      `request` backpointer, a run sets `stdout` and the like). */
  datatype Call =
    | SetUpLoggingCall(log: Value)
    | RunCall
    | LoadCall
    | DumpCall
    | SetAttrCall(name: string, value: Value)

  /** The instance dictionary after one call of the base class. */
  function Apply(attrs: map<string, Value>, c: Call): (r: map<string, Value>)
    ensures c.SetUpLoggingCall? ==> Lookup(r, LogKey) == Found(c.log)
    ensures c.RunCall? ==> Lookup(r, "returncode") == Found(Int(0))
    ensures c.LoadCall? || c.DumpCall? ==> r == attrs
    ensures r.Keys == attrs.Keys + (if c.SetUpLoggingCall? then {LogKey}
                                    else if c.RunCall? then {"returncode"}
                                    else if c.SetAttrCall? then {c.name}
                                    else {})
  {
    match c
    case SetUpLoggingCall(log) => attrs[LogKey := log]
    case RunCall => attrs["returncode" := Int(0)]
    case LoadCall => attrs
    case DumpCall => attrs
    case SetAttrCall(name, value) => attrs[name := value]
  }

  /** The instance dictionary after a sequence of calls, in order. */
  function Replay(attrs: map<string, Value>, calls: seq<Call>): (r: map<string, Value>)
    decreases |calls|
  {
    if calls == [] then attrs
    else Replay(Apply(attrs, calls[0]), calls[1..])
  }

  /** Calls that touch only transient or external state: attaching a logger
      and the load/dump hooks. */
  predicate Transient(c: Call)
  {
    c.SetUpLoggingCall? || c.LoadCall? || c.DumpCall?
  }

  /** However often an activity is given a logger, loaded and dumped, its
      serialisable state stays what it was. */
  lemma {:induction false} TransientCallsKeepState(attrs: map<string, Value>, calls: seq<Call>)
    requires forall i :: 0 <= i < |calls| ==> Transient(calls[i])
    ensures State(Replay(attrs, calls)) == State(attrs)
    decreases |calls|
  {
    if calls != [] {
      var next := Apply(attrs, calls[0]);
      if calls[0].SetUpLoggingCall? {
        StateIgnoresLogger(attrs, calls[0].log);
      }
      assert State(next) == State(attrs);
      TransientCallsKeepState(next, calls[1..]);
    }
  }

  /** Base `run` only sets the return code: every other attribute reads as
      before, and the serialisable state gains exactly `returncode = 0`. */
  lemma RunOnlySetsReturncode(attrs: map<string, Value>, name: string)
    ensures name != "returncode" ==> Lookup(Apply(attrs, RunCall), name) == Lookup(attrs, name)
    ensures State(Apply(attrs, RunCall)) == State(attrs)["returncode" := Int(0)]
  {
  }

  /** A maintenance activity: its instance attributes and the base-class
      behaviour subclasses inherit. */
  class Activity {
    /** The instance dictionary (`__dict__`). */
    var attrs: map<string, Value>

    /** A fresh activity has no instance attributes: all six outcome fields
        read their class default None and its serialisable state is empty. */
    constructor ()
      ensures attrs == map[]
      ensures forall name :: name in ClassDefaults ==> Lookup(attrs, name) == Found(None)
      ensures State(attrs) == map[]
    {
      attrs := map[];
    }

    /** `__getstate__`: copy the instance dictionary and delete the logger
        from the copy if there is one. The activity itself is left as is. */
    method GetState() returns (state: map<string, Value>)
      ensures state == State(attrs)
    {
      state := attrs;
      if LogKey in state {
        state := state - {LogKey};
      }
    }

    /** `set_up_logging`: store the logger under `log`. */
    method SetUpLogging(log: Value)
      modifies this
      ensures attrs == Apply(old(attrs), SetUpLoggingCall(log))
      ensures Lookup(attrs, LogKey) == Found(log)
      ensures forall name :: name != LogKey ==> Lookup(attrs, name) == Lookup(old(attrs), name)
      ensures State(attrs) == State(old(attrs))
    {
      StateIgnoresLogger(attrs, log);
      attrs := attrs[LogKey := log];
    }

    /** Base `run`: report success with return code 0. */
    method Run()
      modifies this
      ensures attrs == Apply(old(attrs), RunCall)
      ensures Lookup(attrs, "returncode") == Found(Int(0))
      ensures forall name :: name != "returncode" ==> Lookup(attrs, name) == Lookup(old(attrs), name)
    {
      attrs := attrs["returncode" := Int(0)];
    }

    /** Base `load` hook: nothing to restore. */
    method Load()
      ensures attrs == Apply(old(attrs), LoadCall)
    {
    }

    /** Base `dump` hook: nothing extra to save. */
    method Dump()
      ensures attrs == Apply(old(attrs), DumpCall)
    {
    }

    /** Attribute assignment from outside or from a subclass (`self.name = v`). */
    method SetAttr(name: string, value: Value)
      modifies this
      ensures attrs == Apply(old(attrs), SetAttrCall(name, value))
      ensures Lookup(attrs, name) == Found(value)
      ensures name != LogKey ==> State(attrs) == State(old(attrs))[name := value]
    {
      attrs := attrs[name := value];
    }
  }
}
