/**
 * Handlers are user callables the core never looks inside. The model keeps
 * an identity for each and the parameter names of its signature (which the
 * asynchronous dispatcher binds by name), and records each invocation as a
 * `Call` value instead of running anything.
 */
module Calls {

  datatype Handler = Handler(id: nat, params: seq<string>)

  /** One invocation of `handler` with the positional arguments `args`. */
  datatype Call<A> = Call(handler: Handler, args: seq<A>)
}
