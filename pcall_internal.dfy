/** The marshalling between a typed C++ callback and a Lua C function:
    per-argument extraction (`GetArgument`, `ArgumentHolder`), the invoker
    that runs the callback on the extracted values (`Invoker`), the entry
    point Lua calls (`DispatchToCallback`) and its registration
    (`PushCFunction`). */
module PcallInternal {
  import opened LuaApi
  import Format

  /** An extracted argument: a converted native value, or the in-flight
      `CallContext` itself, which a `CallContext*` parameter asks for. The
      callback only runs when every argument converted, so the context it
      receives always has `has_error` clear and its error fields untouched. */
  datatype Arg = Native(value: NativeValue) | InFlightContext

  /** What running the callback did: the value it returned (ignored for a
      `void` callback), the Lua stack it left (it may read, push, pop or
      replace slots through `context->state` or a state it captured), and
      whether it set `has_error` on the context it received. */
  datatype Reply = Reply(result: NativeValue, stack: seq<LuaValue>, setsError: bool)

  /** `base::Callback<Sig>`: an opaque function of its arguments and of the Lua
      stack as it finds it. */
  datatype Callback = Callback(run: (seq<Arg>, seq<LuaValue>) -> Reply)

  /** `CallbackHolder<Sig>`: the callback and its creation flags, stored in the
      userdata that is upvalue 1 of the pushed closure. */
  datatype CallbackHolder = CallbackHolder(sig: Signature, callback: Callback, flags: set<CreateFlag>)

  /** The error a failing call raises through `lua_error`. */
  datatype LuaError =
    | InsufficientArgs(expected: int, got: int)
    | ArgConversion(index: int, from: string, to: string)
    | ResultConversion
      /** The callback set `has_error` itself. The raised value is the top of
          the stack: for a `void` callback, the top the callback left; otherwise
          the last slot `Push` left on top of the callback's stack. */
    | ReportedByCallback

  /** How a call ends: it returns a count of results, or raises. */
  datatype Outcome = Return(count: int) | Raise(error: LuaError)

  /** The text pushed before `lua_error` for the errors the dispatcher reports. */
  function Message(e: LuaError): (m: string)
    requires !e.ReportedByCallback?
    ensures e.InsufficientArgs? <==> IsPrefix("insufficient args, expecting ", m)
    ensures e.ArgConversion? <==> IsPrefix("error converting arg at index ", m)
    ensures e.ResultConversion? <==> m == "Failed to convert result"
  {
    match e
    case InsufficientArgs(expected, got) =>
      var head := "insufficient args, expecting ";
      var m := head + Format.IntToDecimal(expected) + " but got " + Format.IntToDecimal(got);
      assert m[..|head|] == head;
      assert m[0] == 'i';
      m
    case ArgConversion(index, from, to) =>
      var head := "error converting arg at index ";
      var m := head + Format.IntToDecimal(index) + " from " + from + " to " + to;
      assert m[..|head|] == head;
      assert m[0] == 'e';
      m
    case ResultConversion => "Failed to convert result"
  }

  predicate IsPrefix(p: string, s: string) {
    |p| <= |s| && s[..|p|] == p
  }

  /** The per-call state the extractors and the dispatcher share. */
  class CallContext {
    const state: LuaState
    const createFlags: set<CreateFlag>
    var invalidArg: int
    var invalidArgName: string
    var hasError: bool

    /** lua/call_context.h is not part of this model: the fields are taken to
        start cleared. */
    constructor (state: LuaState, flags: set<CreateFlag>)
      ensures this.state == state && createFlags == flags
      ensures !hasError && invalidArg == 0 && invalidArgName == ""
    {
      this.state := state;
      createFlags := flags;
      invalidArg := 0;
      invalidArgName := "";
      hasError := false;
    }
  }

  /** `GetArgument` for parameter `index` (0-based): a `CallContext*` parameter
      gets the context whatever the index; any other parameter fails at index 0
      when the holder is the first argument, and otherwise converts Lua slot
      `index + 1`. */
  function GetArgument(flags: set<CreateFlag>, stack: seq<LuaValue>, index: nat, p: Param, api: LuaApi): (r: Option<Arg>)
    ensures p.RawContext? ==> r == Some(InFlightContext)
    ensures p.Typed? ==>
      (r.Some? <==> !(index == 0 && HolderIsFirstArgument in flags)
                    && api.to(p.tag, SlotAt(stack, index + 1)).Some?)
    ensures p.Typed? && r.Some? ==>
      r.value.Native? && api.to(p.tag, SlotAt(stack, index + 1)) == Some(r.value.value)
  {
    match p
    case RawContext => Some(InFlightContext)
    case Typed(tag) =>
      if index == 0 && HolderIsFirstArgument in flags then None
      else
        match api.to(tag, SlotAt(stack, index + 1))
        case Some(v) => Some(Native(v))
        case None => None
  }

  /** An `ArgumentHolder`: the extracted value, `None` when its `ok` is false. */
  type ArgumentHolder = Option<Arg>

  /** The holders of every declared parameter, in declaration order. */
  function Extract(flags: set<CreateFlag>, stack: seq<LuaValue>, params: seq<Param>, api: LuaApi): (holders: seq<ArgumentHolder>)
    ensures |holders| == |params|
    ensures forall i :: 0 <= i < |params| ==> holders[i] == GetArgument(flags, stack, i, params[i], api)
  {
    seq(|params|, i requires 0 <= i < |params| => GetArgument(flags, stack, i, params[i], api))
  }

  function Oks(holders: seq<ArgumentHolder>): (oks: seq<bool>)
    ensures |oks| == |holders|
    ensures forall i :: 0 <= i < |holders| ==> oks[i] == holders[i].Some?
  {
    seq(|holders|, i requires 0 <= i < |holders| => holders[i].Some?)
  }

  /** `Invoker::And`: the conjunction of the flags, `true` for none. */
  function And(oks: seq<bool>): (r: bool)
    ensures r <==> forall i :: 0 <= i < |oks| ==> oks[i]
  {
    if |oks| == 0 then true else oks[0] && And(oks[1..])
  }

  /** The highest index whose holder failed, if any. */
  function LastFailure(holders: seq<ArgumentHolder>): (r: Option<nat>)
    ensures r.None? <==> forall i :: 0 <= i < |holders| ==> holders[i].Some?
    ensures r.Some? ==> r.value < |holders| && holders[r.value].None?
    ensures r.Some? ==> forall j :: r.value < j < |holders| ==> holders[j].Some?
  {
    if |holders| == 0 then None
    else if holders[|holders| - 1].None? then Some(|holders| - 1)
    else LastFailure(holders[..|holders| - 1])
  }

  /** The context's `(invalid_arg, invalid_arg_name)` once `holders` have been
      built from `before`: every failing holder overwrites both, so the last
      failure is the one that remains. */
  function Reported(holders: seq<ArgumentHolder>, params: seq<Param>, api: LuaApi, before: (int, string)): (int, string)
    requires |holders| <= |params|
  {
    match LastFailure(holders)
    case None => before
    case Some(i) => (i + 1, api.typeName(params[i]))
  }

  /** One more holder: a failing one overwrites what was reported, a
      succeeding one keeps it. */
  lemma ReportedAppend(holders: seq<ArgumentHolder>, h: ArgumentHolder, params: seq<Param>, api: LuaApi, before: (int, string))
    requires |holders| < |params|
    ensures Reported(holders + [h], params, api, before)
            == if h.None? then (|holders| + 1, api.typeName(params[|holders|]))
               else Reported(holders, params, api, before)
  {
  }

  /** The arguments handed to the callback. */
  function Values(holders: seq<ArgumentHolder>): (args: seq<Arg>)
    requires forall i :: 0 <= i < |holders| ==> holders[i].Some?
    ensures |args| == |holders|
    ensures forall i :: 0 <= i < |holders| ==> holders[i] == Some(args[i])
  {
    seq(|holders|, i requires 0 <= i < |holders| => holders[i].value)
  }

  /** Whether the callback was handed the context, the only way it can reach
      `has_error`. */
  predicate ReceivesContext(args: seq<Arg>) {
    exists i :: 0 <= i < |args| && args[i].InFlightContext?
  }

  /** What `Invoker::DispatchToCallback` did: whether it reports success, the
      stack it leaves, and whether the callback set `has_error`. */
  datatype Invocation = Invocation(ok: bool, stack: seq<LuaValue>, setsError: bool)

  /** The three `Invoker::DispatchToCallback` overloads: run the callback on
      `stack`, then push its result (one value or a tuple); a `void` callback
      has nothing pushed after it and succeeds. */
  function Invoke(ret: ReturnType, callback: Callback, args: seq<Arg>, stack: seq<LuaValue>, api: LuaApi): (r: Invocation)
    ensures ret.Void? ==> r.ok && r.stack == callback.run(args, stack).stack
    ensures !ret.Void? ==>
      var reply := callback.run(args, stack);
      var p := api.push(ret, reply.result);
      r.ok == p.ok && r.stack == reply.stack + p.slots
    ensures r.setsError <==> callback.run(args, stack).setsError && ReceivesContext(args)
  {
    var reply := callback.run(args, stack);
    var setsError := reply.setsError && ReceivesContext(args);
    if ret.Void? then Invocation(true, reply.stack, setsError)
    else
      var p := api.push(ret, reply.result);
      Invocation(p.ok, reply.stack + p.slots, setsError)
  }

  /** One call of the closure: how it ends, the stack it leaves, and what the
      callback did if it ran. */
  datatype CallTrace = CallTrace(outcome: Outcome, stack: seq<LuaValue>, reply: Option<Reply>) {
    predicate invoked() { reply.Some? }
  }

  /** `Dispatcher<R(Args...)>::DispatchToCallback` on a stack of arguments. */
  function Call(holder: CallbackHolder, stack: seq<LuaValue>, api: LuaApi): (t: CallTrace)
    ensures t.invoked() ==> |stack| >= |holder.sig.params|
    ensures t.outcome.Return? ==> t.invoked()
    ensures t.outcome.Raise? && (t.outcome.error.InsufficientArgs? || t.outcome.error.ArgConversion?)
            ==> !t.invoked()
    ensures !t.invoked() ==> |t.stack| == |stack| + 1 && t.stack[..|stack|] == stack
  {
    var params := holder.sig.params;
    if |stack| < |params| then
      var e := InsufficientArgs(|params|, |stack|);
      CallTrace(Raise(e), stack + [api.pushString(Message(e))], None)
    else
      var holders := Extract(holder.flags, stack, params, api);
      match LastFailure(holders)
      case Some(i) =>
        var e := ArgConversion(i + 1, api.luaTypeName(SlotAt(stack, i + 1)), api.typeName(params[i]));
        CallTrace(Raise(e), stack + [api.pushString(Message(e))], None)
      case None =>
        var reply := Some(holder.callback.run(Values(holders), stack));
        var inv := Invoke(holder.sig.ret, holder.callback, Values(holders), stack, api);
        if !inv.ok then
          CallTrace(Raise(ResultConversion), inv.stack + [api.pushString(Message(ResultConversion))], reply)
        else if inv.setsError then
          CallTrace(Raise(ReportedByCallback), inv.stack, reply)
        else
          CallTrace(Return(api.valuesCount(holder.sig.ret)), inv.stack, reply)
  }

  /** The `ArgumentHolder` constructor for parameter `index`: extract it and,
      on failure, record its 1-based position and type name in the context. */
  method NewArgumentHolder(context: CallContext, index: nat, p: Param, api: LuaApi) returns (h: ArgumentHolder)
    modifies context
    ensures h == GetArgument(context.createFlags, context.state.stack, index, p, api)
    ensures h.None? ==> context.invalidArg == index + 1 && context.invalidArgName == api.typeName(p)
    ensures h.Some? ==> context.invalidArg == old(context.invalidArg)
                        && context.invalidArgName == old(context.invalidArgName)
    ensures context.hasError == old(context.hasError)
  {
    h := GetArgument(context.createFlags, context.state.stack, index, p, api);
    if h.None? {
      context.invalidArg := index + 1;
      context.invalidArgName := api.typeName(p);
    }
  }

  /** `Invoker<Indices, ArgTypes...>`: one holder per parameter, built in
      declaration order against a shared context. */
  class Invoker {
    const context: CallContext
    const holders: seq<ArgumentHolder>

    /** Builds every holder, 0 to N-1, without stopping at a failure. */
    constructor (context: CallContext, params: seq<Param>, api: LuaApi)
      modifies context
      ensures this.context == context
      ensures holders == Extract(context.createFlags, context.state.stack, params, api)
      ensures (context.invalidArg, context.invalidArgName)
              == Reported(holders, params, api, old((context.invalidArg, context.invalidArgName)))
      ensures context.hasError == old(context.hasError)
    {
      ghost var before := (context.invalidArg, context.invalidArgName);
      var flags := context.createFlags;
      ghost var stack := context.state.stack;
      var built: seq<ArgumentHolder> := [];
      var i := 0;
      while i < |params|
        invariant 0 <= i <= |params| && |built| == i
        invariant forall j :: 0 <= j < i ==> built[j] == GetArgument(flags, stack, j, params[j], api)
        invariant (context.invalidArg, context.invalidArgName) == Reported(built, params, api, before)
        invariant context.hasError == old(context.hasError)
      {
        var h := NewArgumentHolder(context, i, params[i], api);
        ReportedAppend(built, h, params, api, before);
        built := built + [h];
        i := i + 1;
      }
      this.context := context;
      holders := built;
    }

    /** `IsOK`: every holder succeeded. */
    function IsOK(): (r: bool)
      ensures r <==> forall i :: 0 <= i < |holders| ==> holders[i].Some?
    {
      And(Oks(holders))
    }

    /** Runs the callback on the extracted values and pushes its result. */
    method DispatchToCallback(ret: ReturnType, callback: Callback, api: LuaApi) returns (ok: bool)
      requires IsOK()
      modifies context, context.state
      ensures var inv := Invoke(ret, callback, Values(holders), old(context.state.stack), api);
        && ok == inv.ok
        && context.state.stack == inv.stack
        && context.hasError == (old(context.hasError) || inv.setsError)
      ensures context.invalidArg == old(context.invalidArg)
      ensures context.invalidArgName == old(context.invalidArgName)
    {
      var args := Values(holders);
      var reply := callback.run(args, context.state.stack);
      context.state.stack := reply.stack;
      if reply.setsError && ReceivesContext(args) {
        context.hasError := true;
      }
      if ret.Void? {
        ok := true;
      } else {
        var p := api.push(ret, reply.result);
        context.state.stack := context.state.stack + p.slots;
        ok := p.ok;
      }
    }
  }

  /** The entry point Lua calls. The arity is checked first; the context and
      the invoker live in an inner block, and `lua_error` is reached only after
      that block has ended. */
  method DispatchToCallback(state: LuaState, holder: CallbackHolder, api: LuaApi) returns (outcome: Outcome)
    modifies state
    ensures var t := Call(holder, old(state.stack), api);
      outcome == t.outcome && state.stack == t.stack
  {
    var argsGot := |state.stack|;
    var argsExpected := |holder.sig.params|;
    if argsGot < argsExpected {
      var e := InsufficientArgs(argsExpected, argsGot);
      state.stack := state.stack + [api.pushString(Message(e))];
      return Raise(e);
    }

    var context := new CallContext(state, holder.flags);
    var error := ReportedByCallback;
    {
      var invoker := new Invoker(context, holder.sig.params, api);
      if !invoker.IsOK() {
        context.hasError := true;
        error := ArgConversion(context.invalidArg,
                               api.luaTypeName(SlotAt(state.stack, context.invalidArg)),
                               context.invalidArgName);
        state.stack := state.stack + [api.pushString(Message(error))];
      } else {
        var ok := invoker.DispatchToCallback(holder.sig.ret, holder.callback, api);
        if !ok {
          context.hasError := true;
          error := ResultConversion;
          state.stack := state.stack + [api.pushString(Message(error))];
        }
      }
    }

    if context.hasError {
      return Raise(error);
    }
    return Return(api.valuesCount(holder.sig.ret));
  }

  /** `PushCFunction`: store the callback and its flags in a new userdata and
      push a closure over it; `pushcclosure` stands for the closure value Lua
      creates. Allocation failures are ignored, so the result is always true. */
  method PushCFunction(state: LuaState, sig: Signature, callback: Callback,
                       pushcclosure: CallbackHolder -> LuaValue,
                       flags: set<CreateFlag> := {})
    returns (ok: bool)
    modifies state
    ensures ok
    ensures state.stack == old(state.stack) + [pushcclosure(CallbackHolder(sig, callback, flags))]
  {
    var holder := CallbackHolder(sig, callback, flags);
    state.stack := state.stack + [pushcclosure(holder)];
    return true;
  }
}
