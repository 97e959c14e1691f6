/** The epoll event bits a channel can ask for or be told about. */
module Events {

  datatype Bit = IN | PRI | OUT | RDHUP | ERR | HUP

  type Mask = set<Bit>

  const NONE: Mask := {}
  const READ: Mask := {IN, PRI}
  const WRITE: Mask := {OUT}

  /** Bits epoll reports whether or not they were asked for. */
  const UNASKED: Mask := {ERR, HUP}

  /** m_events & kWriteEvent */
  predicate IsWriting(events: Mask) {
    OUT in events
  }
}
