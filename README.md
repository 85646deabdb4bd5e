# Lua ↔ C++ call marshalling (`lua/pcall_internal.h`)

This project models how yue's Lua binding turns a typed C++ callback
(`base::Callback<R(Args...)>`) into a Lua C function, and proves what one call
of such a function does. The steps are:

1. `PushCFunction` stores the callback and its creation flags in a userdata and
   pushes a closure over it. It always reports success.
2. When Lua calls the closure, `Dispatcher<R(Args...)>::DispatchToCallback`
   compares `lua_gettop` with the declared arity. With too few values it
   raises "insufficient args, expecting N but got K".
3. It builds one `ArgumentHolder` per declared parameter, in declaration
   order, against a fresh `CallContext`. Holder `i` calls `GetArgument`:
   - a `CallContext*` parameter always gets the context itself;
   - any other parameter fails at index 0 when the `HolderIsFirstArgument`
     flag is set;
   - otherwise it converts Lua slot `i + 1`.
   A failing holder writes its 1-based position and its type name into the
   context. Later holders still run.
4. `Invoker::IsOK` (the `And` of every holder's flag) gates the callback. The
   invoker runs the callback, then pushes its result: one value, or a tuple.
   A `void` callback always succeeds.
5. After the invoker's block has closed, the call raises if `has_error` is
   set. Otherwise it returns `Values<R>::count`.

Files:
- `lua_api.dfy` (module `LuaApi`): the Lua stack (`LuaState`, `SlotAt`) and the
  conversion layer of `lua/stack.h`. That layer is a record of function values,
  `LuaApi`, whose behaviour is left abstract.
- `pcall_internal.dfy` (module `PcallInternal`): the core. It holds the
  specification functions (`GetArgument`, `Extract`, `And`, `LastFailure`,
  `Invoke`, `Call`) and the imperative code proved against them:
  - `NewArgumentHolder`, which updates the shared `CallContext`;
  - the `Invoker` class, whose constructor builds every holder in a loop;
    `Reported` and `ReportedAppend` compute the context's error fields after
    each holder, which is where "the last failure wins" is established;
  - the entry point `DispatchToCallback`;
  - `PushCFunction`.
- `pcall_properties.dfy` (module `PcallProperties`): lemmas about `Call`.
- `format.dfy` (module `Format`): the `%d` rendering used in the error
  messages, with its parse-back round trip.

Three details of the code shape what a call reports:
- **The last failing argument is reported.** Every failing holder overwrites
  `invalid_arg` and `invalid_arg_name`, and no holder is skipped after a
  failure (lua/pcall_internal.h:86-93, 109-111). So the message names the
  highest failing position. `ArgConversionReportsLastFailure` and
  `EarlierFailureNotReported` state this.
- **A `CallContext*` parameter counts toward the arity.** It is one of
  `ArgTypes`, so it counts in `sizeof...(ArgTypes)` (line 160). A callback
  whose only parameter is `CallContext*` therefore raises the arity error
  when called with no Lua value (`ContextOnlyCallback`).
- **The callback can raise.** The dispatcher raises whenever
  `context.has_error` is set (line 191), and a callback that takes
  `CallContext*` can set that flag itself. The model gives this a fourth
  outcome, `Raise(ReportedByCallback)`. The value raised is the top of the
  stack: for a `void` callback, the top the callback left; otherwise `Push`
  has already run (lines 120-121, 128-129), so it is the last slot `Push`
  left on top of the callback's stack (`CallbackRaiseTop`).

## Model

| member | source | states |
|---|---|---|
| `PcallInternal.Message` | lua/pcall_internal.h:162-187 | the three texts the dispatcher pushes: the arity and argument messages start with their fixed heads, and the result message is exactly "Failed to convert result"; each head occurs only for its own kind of error |
| `PcallInternal.CallContext.constructor` | lua/pcall_internal.h:174 | the context carries the call's state and the holder's flags, with `has_error` clear |
| `PcallInternal.GetArgument` | lua/pcall_internal.h:31-47 | a `CallContext*` parameter yields the context; any other parameter succeeds exactly when it is not index 0 under the holder-is-first-argument flag and `To` converts slot index+1, and then yields `To`'s value; further facts are in the `GetArgument...` lemmas below |
| `PcallInternal.Invoke` | lua/pcall_internal.h:117-138 | the callback runs on the stack as it stands; void reports success and adds nothing after the callback; otherwise success is `Push`'s flag and `Push`'s slots go on top of the stack the callback left; the callback's `has_error` counts only when it was handed the context |
| `PcallInternal.Call` | lua/pcall_internal.h:157-198 | the callback runs only with at least N values; a return implies it ran; the arity and argument errors imply it did not run, and then exactly one message is pushed; the full meaning is given by the `PcallProperties` lemmas |
| `PcallInternal.And` | lua/pcall_internal.h:141-145 | the recursive conjunction is true exactly when every flag is true, so it is true for no flags at all |
| `PcallInternal.LastFailure` | lua/pcall_internal.h:86-93 | the position that overwrites last: absent exactly when every holder succeeded; otherwise a failing position with every later holder successful |
| `PcallInternal.NewArgumentHolder` | lua/pcall_internal.h:86-93 | the holder is `GetArgument` for its index; a failure sets `invalid_arg` to index+1 and `invalid_arg_name` to the type name; success leaves both untouched; `has_error` is never touched |
| `PcallInternal.Invoker.constructor` | lua/pcall_internal.h:109-111 | every holder is built in order 0..N-1 with no short-circuit; afterwards `invalid_arg` is 1 + the highest failing index and the name is that parameter's, or both are unchanged when none failed |
| `PcallInternal.Invoker.IsOK` | lua/pcall_internal.h:113-115 | true exactly when every holder's `ok` is set |
| `PcallInternal.Invoker.DispatchToCallback` | lua/pcall_internal.h:117-138 | runs the callback on the extracted values and the current stack; `ok`, the new stack and `has_error` are those of `Invoke`, so a void callback reports success and a non-void one reports `Push`'s success; the context's error fields are untouched |
| `PcallInternal.DispatchToCallback` | lua/pcall_internal.h:157-198 | the outcome and the final stack are those of `Call` for the stack at entry |
| `PcallInternal.PushCFunction` | lua/pcall_internal.h:202-212 | always returns true and pushes exactly one closure over a holder of the callback and its flags |
| `PcallProperties.GetArgumentReadsItsSlot` | lua/pcall_internal.h:31-40 | extraction of parameter `index` depends on Lua slot `index+1` only |
| `PcallProperties.HolderFirstArgumentFails` | lua/pcall_internal.h:32-35 | with the holder-is-first-argument flag set, a converted parameter at index 0 fails whatever the stack holds |
| `PcallProperties.ContextArgumentAlwaysSucceeds` | lua/pcall_internal.h:44-47 | a `CallContext*` parameter yields the context at any index, under any flags |
| `PcallProperties.InsufficientArgsRaised` | lua/pcall_internal.h:158-167 | the arity error, carrying the declared and supplied counts, is raised exactly when fewer values than parameters were supplied; then the callback is not run and only the message is pushed |
| `PcallProperties.OneOfTwoArgsMessage` | lua/pcall_internal.h:161-164 | a two-parameter callback called with one value raises the text "insufficient args, expecting 2 but got 1" |
| `PcallProperties.ExtractReadsDeclaredSlots` | lua/pcall_internal.h:176-177 | building the holders reads only the first N slots, N the arity |
| `PcallProperties.SurplusArgsIgnored` | lua/pcall_internal.h:159-177 | surplus values are tolerated and the dispatcher never reads them: stacks that agree on the first N slots give the same holders and the same decision to run the callback; without the callback they give the same error and message; with it, the same outcome whenever the callback's replies agree on result and `has_error` |
| `PcallProperties.CallbackSeesWholeStack` | lua/pcall_internal.h:174-185 | when the callback runs, every holder succeeded and the callback gets the extracted values and the whole stack, surplus values included |
| `PcallProperties.DispatcherOnlyPushes` | lua/pcall_internal.h:157-198 | the dispatcher itself only pushes: the final stack extends the entry stack, or the stack the callback left when it ran |
| `PcallProperties.ArgConversionReportsLastFailure` | lua/pcall_internal.h:174-184 | an argument error at position i, from type F, to name T, is raised exactly when enough values were supplied, holder i-1 failed, every later holder succeeded, F is the Lua type in slot i and T is parameter i-1's type name |
| `PcallProperties.EarlierFailureNotReported` | lua/pcall_internal.h:86-93 | when holders i < j both fail, the reported position is at least j+1, never i+1 |
| `PcallProperties.CallbackRunsOnlyWhenAllConverted` | lua/pcall_internal.h:178-185 | the callback runs exactly when the arity check passed and every holder succeeded |
| `PcallProperties.CallbackWithoutContextCannotRaise` | lua/pcall_internal.h:191-195 | a callback that was not handed the context cannot set `has_error` |
| `PcallProperties.ResultConversionExactly` | lua/pcall_internal.h:185-188 | "Failed to convert result" is raised exactly when the callback ran, is not void, and pushing its result failed |
| `PcallProperties.ReturnExactlyOnSuccess` | lua/pcall_internal.h:191-197 | the call returns exactly when the callback ran, the push succeeded and `has_error` stayed clear; it then returns `Values<R>::count` and leaves the stack the callback left with `Push`'s slots on top |
| `PcallProperties.RaisedMessageOnTop` | lua/pcall_internal.h:175-195 | whenever the dispatcher raises one of its own errors, the top of the stack that `lua_error` raises is that error's message |
| `PcallProperties.CallbackRaiseTop` | lua/pcall_internal.h:117-138 | when the callback raises through `has_error` (line 191), the final stack is the callback's own for a void callback, and otherwise the callback's stack with `Push`'s slots on top, so `lua_error` raises the last of those slots |
| `PcallProperties.ContextOnlyCallback` | lua/pcall_internal.h:44-47 | a callback taking only `CallContext*` raises "expecting 1 but got 0" with no Lua value, and otherwise always runs |
| `PcallProperties.HolderFirstNeverRuns` | lua/pcall_internal.h:32-35 | with the holder-is-first-argument flag and a converted first parameter, the callback never runs and the call always raises |
| `Format.NatToDecimalRoundTrip` | lua/pcall_internal.h:162-163 | the `%d` digits of a count parse back to that count |
| `Format.IntToDecimalRoundTrip` | lua/pcall_internal.h:180-182 | a signed `%d` rendering is a sign exactly for negatives, followed by digits that parse back to the magnitude |

## Left out

- scripts/bootstrap.js: a build script that only runs external processes.
- The Lua C API (`lua_gettop`, `lua_touserdata`/`lua_upvalueindex`,
  `lua_newuserdata`, `lua_pushcclosure`, `lua_type`/`lua_typename`,
  `PushFormatedString`) is reduced to a stack of abstract values and a few
  functions. `lua_error` is the terminal `Raise` outcome; the longjmp itself is
  not modelled. The entry point receives the holder directly instead of
  reading it from upvalue 1.
- The conversions of lua/stack.h (`To`, `Push`, `Type<T>::name`,
  `Values<R>::count`) are parameters of the model. lua/stack.h is not part of
  this model. Nothing ties `Values<R>::count` to the number of slots `Push`
  leaves. The types of these parameters build in the assumptions below.
- `To` is assumed to depend only on the value in its slot and to leave the
  stack unchanged. Every holder is therefore extracted from one unchanged
  stack, and the Lua type name in the argument error is read from that same
  stack. `GetArgumentReadsItsSlot`, `ExtractReadsDeclaredSlots` and
  `SurplusArgsIgnored` rest on this.
- `Push` is assumed only to append slots. Its success flag and its slots are
  assumed not to depend on the stack it pushes onto. `DispatcherOnlyPushes`,
  `CallbackRaiseTop` and the last ensures of `SurplusArgsIgnored` rest on this.
- The callback is assumed to return normally. A callback that raises a Lua
  error from inside, for example through an unprotected re-entrant call that
  fails, unwinds through the dispatcher; that outcome is not in the model.
- lua/call_context.h is not part of this model. The `CallContext` constructor
  is taken to clear `has_error`; the starting values of `invalid_arg` and
  `invalid_arg_name` are never observed. The bit value of
  `HolderIsFirstArgument` is not known, so the creation flags are a set of
  named flags and the bit test is membership.
- The callback is an opaque function of its arguments and of the Lua stack it
  finds. It returns the stack it leaves, so it may read, push, pop or replace
  any slot through `context->state` or a state it captured. It may set
  `has_error` only through a `CallContext*` argument. What a re-entrant call
  into Lua does inside the callback is part of that opaque function, not
  modelled step by step.
- PcallProperties.SurplusArgsIgnored: promises equal outcomes after the
  callback has run only when its replies on the two stacks agree. The
  callback sees the whole stack, so a variadic callback may legitimately
  behave differently on different surplus values.
- PcallProperties.DispatcherOnlyPushes: covers only the dispatcher's own
  pushes. Below what it pushes, the stack is whatever the callback left,
  which may have fewer or different slots than the arguments.
- The `CallContext*` argument is the marker `InFlightContext`, not a pointer.
  The callback only runs when every holder succeeded, so the context it would
  see has `has_error` clear and untouched error fields.
- Destruction of the invoker before `lua_error` (lines 175-189) is modelled by
  structure only: the raise is the method's last step, after the block holding
  the invoker. No contract states it.
- `CallbackHolderBase`, `OnGC` and the placement `new` in `PushCFunction`
  (garbage-collector-driven destruction of the callback) are not modelled.
  Their bodies are not shown, and they manage memory lifetime.
- `CallbackParamTraits` and the `IndicesGenerator`/inheritance machinery are
  compile-time type plumbing. Initialisation in declaration order
  (lines 105-108) becomes the loop over 0..N-1 in `Invoker`'s constructor.
- C `int` width for `args_got`, `args_expected` and `invalid_arg` is not
  modelled. These are small counts, so integers are unbounded in the model.
