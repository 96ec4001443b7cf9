/** The in-process bus: every call is passed on to the observers at once. */
module AllInOne {
  import opened Defs

  /** The callbacks a call causes, in the order they are made. */
  function Callbacks(call: BusCall): seq<Callback> {
    match call
    case SendMessage(t, m) => [CustomerOnMessage(t, m), ServicerOnMessage(t, m)]
    case SendTalkClose(t) => [CustomerOnClose(t), ServicerOnClose(t)]
    case SendTalkCreate(t) => [ServicerOnCreate(t)]
    case SendServicerAttach(t, u) => [ServicerOnAttach(t, u)]
    case SendServicerDetach(t, u) => [ServicerOnDetach(t, u)]
  }

  /** The callbacks of a list of calls, one call after the other. */
  function AllCallbacks(calls: seq<BusCall>): seq<Callback> {
    if calls == [] then [] else AllCallbacks(calls[..|calls| - 1]) + Callbacks(calls[|calls| - 1])
  }
}
