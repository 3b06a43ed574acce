/** Small shared datatypes: an optional value (JavaScript's `undefined` versus a value)
    and the recipient descriptor every service passes around. */
module Wrappers {

  /** A JSON text that the services only pass along (a notification body, a sender);
      parsing and serialising are not modelled. */
  type Json = string

  /** `None` stands for a JavaScript `undefined` (or `null`) result. */
  datatype Option<+T> = None | Some(value: T)

  /** The recipient descriptor `{type, id}` of a notification. `kind` is the raw
      `type` string (`individual`, `group`, `broadcast`, or anything else). */
  datatype Recipient = Recipient(kind: string, id: string)

  /** Which call to a notification store, if any, throws during one request (a
      database outage): the read of a document or the update of one. */
  datatype StoreFault = NoFault | ReadFails | UpdateFails

  const Individual: string := "individual"
  const Group: string := "group"
  const Broadcast: string := "broadcast"
}
