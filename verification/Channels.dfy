// A channel that carries nothing and is closed to wake whoever waits on it.

module Channels {

  /** Closing a closed channel panics, so it must not happen. */
  class Channel {
    var closed: bool

    constructor ()
      ensures !closed
    {
      closed := false;
    }

    method Close()
      requires !closed
      modifies this
      ensures closed
    {
      closed := true;
    }
  }
}
