/** What one call of a registered closure promises, stated over the
    specification `Call` that `PcallInternal.DispatchToCallback` is proved
    to follow. */
module PcallProperties {
  import opened LuaApi
  import opened PcallInternal
  import Format

  /** `GetArgument` for parameter `index` looks at Lua slot `index + 1` and at
      nothing else on the stack. */
  lemma GetArgumentReadsItsSlot(flags: set<CreateFlag>, s1: seq<LuaValue>, s2: seq<LuaValue>,
                                index: nat, p: Param, api: LuaApi)
    requires SlotAt(s1, index + 1) == SlotAt(s2, index + 1)
    ensures GetArgument(flags, s1, index, p, api) == GetArgument(flags, s2, index, p, api)
  {
  }

  /** With the holder as first argument, a converted parameter at index 0
      fails whatever the stack holds. */
  lemma HolderFirstArgumentFails(flags: set<CreateFlag>, stack: seq<LuaValue>, tag: TypeTag, api: LuaApi)
    requires HolderIsFirstArgument in flags
    ensures GetArgument(flags, stack, 0, Typed(tag), api).None?
  {
  }

  /** A `CallContext*` parameter always gets the context, at any index and
      under any flags, even index 0 with the holder as first argument. */
  lemma ContextArgumentAlwaysSucceeds(flags: set<CreateFlag>, stack: seq<LuaValue>, index: nat, api: LuaApi)
    ensures GetArgument(flags, stack, index, RawContext, api) == Some(InFlightContext)
  {
  }

  /** Fewer supplied values than declared parameters: the call raises the
      arity error with both counts, extracts nothing, never runs the
      callback, and raises the message it pushed last. */
  lemma InsufficientArgsRaised(holder: CallbackHolder, stack: seq<LuaValue>, api: LuaApi)
    ensures var t := Call(holder, stack, api);
      (t.outcome == Raise(InsufficientArgs(|holder.sig.params|, |stack|)))
        <==> |stack| < |holder.sig.params|
    ensures var t := Call(holder, stack, api);
      |stack| < |holder.sig.params| ==>
        !t.invoked() && t.stack == stack + [api.pushString(Message(t.outcome.error))]
  {
  }

  /** The call with two arguments declared and one supplied raises the message
      "insufficient args, expecting 2 but got 1". */
  lemma OneOfTwoArgsMessage(holder: CallbackHolder, v: LuaValue, api: LuaApi)
    requires |holder.sig.params| == 2
    ensures Call(holder, [v], api).outcome == Raise(InsufficientArgs(2, 1))
    ensures Message(InsufficientArgs(2, 1)) == "insufficient args, expecting 2 but got 1"
  {
  }

  /** The holders of the declared parameters, built from `stack`. */
  function HoldersOf(holder: CallbackHolder, stack: seq<LuaValue>, api: LuaApi): seq<ArgumentHolder>
  {
    Extract(holder.flags, stack, holder.sig.params, api)
  }

  /** Extraction only looks at the first N slots. */
  lemma ExtractReadsDeclaredSlots(flags: set<CreateFlag>, s1: seq<LuaValue>, s2: seq<LuaValue>,
                                  params: seq<Param>, api: LuaApi)
    requires |s1| >= |params| && |s2| >= |params|
    requires s1[..|params|] == s2[..|params|]
    ensures Extract(flags, s1, params, api) == Extract(flags, s2, params, api)
  {
  }

  /** Surplus values are tolerated, and the dispatcher itself never reads
      them: on two stacks that agree on the first N slots, N the declared
      arity, it builds the same holders and makes the same decision to run the
      callback; when it does not run it, both calls raise the same error and
      push the same message. The callback sees the whole stack, so after it
      has run the two calls end alike when its replies agree on the result
      and on `has_error`. */
  lemma SurplusArgsIgnored(holder: CallbackHolder, s1: seq<LuaValue>, s2: seq<LuaValue>, api: LuaApi)
    requires |s1| >= |holder.sig.params| && |s2| >= |holder.sig.params|
    requires s1[..|holder.sig.params|] == s2[..|holder.sig.params|]
    ensures HoldersOf(holder, s1, api) == HoldersOf(holder, s2, api)
    ensures Call(holder, s1, api).invoked() == Call(holder, s2, api).invoked()
    ensures !Call(holder, s1, api).invoked() ==>
      Call(holder, s1, api).outcome == Call(holder, s2, api).outcome
      && Call(holder, s1, api).stack[|s1|..] == Call(holder, s2, api).stack[|s2|..]
    ensures var t1, t2 := Call(holder, s1, api), Call(holder, s2, api);
      t1.invoked() && t1.reply.value.result == t2.reply.value.result
      && t1.reply.value.setsError == t2.reply.value.setsError ==>
        t1.outcome == t2.outcome
  {
    var n := |holder.sig.params|;
    ExtractReadsDeclaredSlots(holder.flags, s1, s2, holder.sig.params, api);
    var hs := HoldersOf(holder, s1, api);
    match LastFailure(hs)
    case Some(i) =>
      assert s1[i] == s1[..n][i] && s2[i] == s2[..n][i];
      assert SlotAt(s1, i + 1) == SlotAt(s2, i + 1);
    case None =>
  }

  /** When the callback runs, it is handed the extracted values and the whole
      stack, surplus values included, so a variadic callback can read them. */
  lemma CallbackSeesWholeStack(holder: CallbackHolder, stack: seq<LuaValue>, api: LuaApi)
    ensures var t := Call(holder, stack, api);
      t.invoked() ==>
        (forall i :: 0 <= i < |holder.sig.params| ==> HoldersOf(holder, stack, api)[i].Some?)
        && t.reply.value == holder.callback.run(Values(HoldersOf(holder, stack, api)), stack)
  {
  }

  /** The dispatcher itself never removes or rewrites a slot: what it leaves
      is the stack it was given, or the stack the callback left, with at most
      the pushed result and one message on top. */
  lemma DispatcherOnlyPushes(holder: CallbackHolder, stack: seq<LuaValue>, api: LuaApi)
    ensures var t := Call(holder, stack, api);
      var base := if t.invoked() then t.reply.value.stack else stack;
      |t.stack| >= |base| && t.stack[..|base|] == base
  {
  }

  /** An argument failure is reported at the 1-based position of the LAST
      failing parameter (every failing holder overwrites the context's
      fields), together with the Lua type found in that slot and the
      parameter's type name; it is raised exactly when enough values were
      supplied and some holder failed. */
  lemma ArgConversionReportsLastFailure(holder: CallbackHolder, stack: seq<LuaValue>, api: LuaApi,
                                          index: int, from: string, to: string)
    ensures Call(holder, stack, api).outcome == Raise(ArgConversion(index, from, to))
      <==> var params := holder.sig.params;
           |stack| >= |params| && 1 <= index <= |params|
           && HoldersOf(holder, stack, api)[index - 1].None?
           && (forall j :: index <= j < |params| ==> HoldersOf(holder, stack, api)[j].Some?)
           && from == api.luaTypeName(SlotAt(stack, index))
           && to == api.typeName(params[index - 1])
  {
  }

  /** A failure at a higher position hides one at a lower position: when the
      holders at `i < j` both fail, the reported position is past `i + 1`. */
  lemma EarlierFailureNotReported(holder: CallbackHolder, stack: seq<LuaValue>, api: LuaApi, i: nat, j: nat)
    requires |stack| >= |holder.sig.params|
    requires i < j < |holder.sig.params|
    requires HoldersOf(holder, stack, api)[i].None? && HoldersOf(holder, stack, api)[j].None?
    ensures Call(holder, stack, api).outcome.Raise?
    ensures Call(holder, stack, api).outcome.error.ArgConversion?
    ensures Call(holder, stack, api).outcome.error.index >= j + 1 > i + 1
  {
  }

  /** The callback runs exactly when enough values were supplied and every
      holder converted. */
  lemma CallbackRunsOnlyWhenAllConverted(holder: CallbackHolder, stack: seq<LuaValue>, api: LuaApi)
    ensures Call(holder, stack, api).invoked()
      <==> |stack| >= |holder.sig.params|
           && forall i :: 0 <= i < |holder.sig.params| ==> HoldersOf(holder, stack, api)[i].Some?
  {
    if |stack| >= |holder.sig.params| {
      var hs := HoldersOf(holder, stack, api);
      assert LastFailure(hs).None? <==> forall i :: 0 <= i < |hs| ==> hs[i].Some?;
    }
  }

  /** A callback that does not take the context cannot make the call raise on
      its own behalf. */
  lemma CallbackWithoutContextCannotRaise(ret: ReturnType, callback: Callback, args: seq<Arg>,
                                          stack: seq<LuaValue>, api: LuaApi)
    requires forall i :: 0 <= i < |args| ==> args[i].Native?
    ensures !Invoke(ret, callback, args, stack, api).setsError
  {
  }

  /** The result error is raised exactly when the callback ran, returns a
      value, and pushing that value failed. */
  lemma ResultConversionExactly(holder: CallbackHolder, stack: seq<LuaValue>, api: LuaApi)
    ensures var t := Call(holder, stack, api);
      (t.outcome == Raise(ResultConversion))
        <==> t.invoked() && !holder.sig.ret.Void?
             && !api.push(holder.sig.ret, t.reply.value.result).ok
  {
  }

  /** A call returns only when every stage succeeded; it then returns
      `Values<ReturnType>::count` and leaves the stack the callback left with
      `Push`'s slots on top. */
  lemma ReturnExactlyOnSuccess(holder: CallbackHolder, stack: seq<LuaValue>, api: LuaApi)
    ensures var t := Call(holder, stack, api);
      (t.outcome.Return?)
        <==> t.invoked()
             && var inv := Invoke(holder.sig.ret, holder.callback, Values(HoldersOf(holder, stack, api)), stack, api);
                inv.ok && !inv.setsError
    ensures var t := Call(holder, stack, api);
      t.outcome.Return? ==>
        t.outcome.count == api.valuesCount(holder.sig.ret)
        && t.stack == Invoke(holder.sig.ret, holder.callback,
                             Values(HoldersOf(holder, stack, api)), stack, api).stack
  {
  }

  /** Whenever the dispatcher raises one of its own errors, the value
      `lua_error` raises (the top of the stack) is that error's message. */
  lemma RaisedMessageOnTop(holder: CallbackHolder, stack: seq<LuaValue>, api: LuaApi)
    ensures var t := Call(holder, stack, api);
      t.outcome.Raise? && !t.outcome.error.ReportedByCallback? ==>
        |t.stack| > 0 && t.stack[|t.stack| - 1] == api.pushString(Message(t.outcome.error))
  {
  }

  /** When the callback raises by setting `has_error`, `lua_error` raises the
      top of the final stack: for a `void` callback the stack is exactly what
      the callback left; otherwise `Push` has already put the result's slots on
      top of it, so the raised value is the last of those slots. */
  lemma CallbackRaiseTop(holder: CallbackHolder, stack: seq<LuaValue>, api: LuaApi)
    ensures var t := Call(holder, stack, api);
      t.outcome == Raise(ReportedByCallback) ==>
        t.invoked()
        && (holder.sig.ret.Void? ==> t.stack == t.reply.value.stack)
        && (!holder.sig.ret.Void? ==>
              var slots := api.push(holder.sig.ret, t.reply.value.result).slots;
              t.stack == t.reply.value.stack + slots
              && (|slots| > 0 ==> t.stack[|t.stack| - 1] == slots[|slots| - 1]))
  {
  }

  /** A callback whose only parameter is `CallContext*` still needs one Lua
      value, since the context parameter counts toward the arity; given one,
      extraction always succeeds and the callback runs. */
  lemma ContextOnlyCallback(holder: CallbackHolder, stack: seq<LuaValue>, api: LuaApi)
    requires holder.sig.params == [RawContext]
    ensures |stack| == 0 ==> Call(holder, stack, api).outcome == Raise(InsufficientArgs(1, 0))
    ensures |stack| >= 1 ==> Call(holder, stack, api).invoked()
  {
  }

  /** With the holder as first argument and a converted first parameter, a
      call never runs the callback and always raises. */
  lemma HolderFirstNeverRuns(holder: CallbackHolder, stack: seq<LuaValue>, api: LuaApi)
    requires HolderIsFirstArgument in holder.flags
    requires |holder.sig.params| > 0 && holder.sig.params[0].Typed?
    ensures !Call(holder, stack, api).invoked()
    ensures Call(holder, stack, api).outcome.Raise?
  {
  }
}
