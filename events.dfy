/** Python's `threading.Event`: a flag that threads set and poll. The
    restart and shutdown events of kpf are two such objects, shared by the
    main thread, the signal handler and the watchdog. */
module Events {
  class Event {
    var isSet: bool

    constructor ()
      ensures !isSet
    {
      isSet := false;
    }

    method Set()
      modifies this
      ensures isSet
    {
      isSet := true;
    }
  }
}
