/** The part of the Lua C API and of the type-conversion layer (lua/stack.h)
    that the call-marshalling code relies on. Everything here is a
    collaborator: its behaviour is not part of this model, so values and
    types are abstract and the conversions are parameters. */
module LuaApi {

  datatype Option<+T> = None | Some(value: T)

  /** A value that can sit in a Lua stack slot. */
  type LuaValue

  /** A C++ value produced by converting a stack slot, or returned by a callback. */
  type NativeValue

  /** A C++ parameter or result type for which `To`, `Push` and
      `Type<T>::name` are defined. */
  type TypeTag

  /** What `lua_type` sees at a stack index: a value, or LUA_TNONE past the top. */
  type Slot = Option<LuaValue>

  /** One declared parameter of a callback signature: a type converted from
      the Lua stack, or `CallContext*`, which asks for the call's own context. */
  datatype Param = Typed(tag: TypeTag) | RawContext

  /** The declared return type: `void`, one value, or a `std::tuple`. */
  datatype ReturnType = Void | Single(tag: TypeTag) | Tuple(tags: seq<TypeTag>)

  /** `ReturnType(ArgTypes...)`, fixed when the callback is registered. */
  datatype Signature = Signature(ret: ReturnType, params: seq<Param>)

  /** The bits of a callback's creation flags that this code tests. */
  datatype CreateFlag = HolderIsFirstArgument | OtherFlag(bit: nat)

  /** What `Push(state, value)` did: whether it succeeded, and the slots it
      left on top of the stack. */
  datatype PushResult = PushResult(ok: bool, slots: seq<LuaValue>)

  /** The collaborators, as functions:
      - `to`: `To(state, index, &out)` applied to the slot at `index`;
      - `typeName`: `Type<T>::name`, the display name of a parameter type;
      - `luaTypeName`: `lua_typename(state, lua_type(state, index))` for a slot;
      - `push`: `Push(state, value)` for a non-void return type;
      - `pushString`: the Lua string that `PushFormatedString` or
        `Push(state, const char*)` leaves on the stack for a text;
      - `valuesCount`: `Values<ReturnType>::count`. */
  datatype LuaApi = LuaApi(
    to: (TypeTag, Slot) -> Option<NativeValue>,
    typeName: Param -> string,
    luaTypeName: Slot -> string,
    push: (ReturnType, NativeValue) -> PushResult,
    pushString: string -> LuaValue,
    valuesCount: ReturnType -> int)

  /** The stack of one C function activation: slot 1 is `stack[0]` and
      `lua_gettop` is `|stack|`. */
  class LuaState {
    var stack: seq<LuaValue>

    constructor (args: seq<LuaValue>)
      ensures stack == args
    {
      stack := args;
    }
  }

  /** The slot at 1-based `index`, or LUA_TNONE outside `1..lua_gettop`. */
  function SlotAt(stack: seq<LuaValue>, index: int): (s: Slot)
    ensures s.Some? <==> 1 <= index <= |stack|
    ensures s.Some? ==> s.value == stack[index - 1]
  {
    if 1 <= index <= |stack| then Some(stack[index - 1]) else None
  }
}
