/** The events of the motor controller and their message identities.

    Every message kind carries a small unsigned identifier (`message_id_t`);
    the identifiers are the positions of the kinds in the `EventId`
    enumeration. The human-readable labels of the enumeration are not part
    of this model. */
module Messages {

  /** A message identity: a small unsigned integer. */
  newtype MessageId = x: int | 0 <= x < 256

  const START: MessageId := 0
  const STOP: MessageId := 1
  const STOPPED: MessageId := 2
  const SET_SPEED: MessageId := 3
  const UNSUPPORTED: MessageId := 4

  /** The five message kinds, each with its immutable payload. */
  datatype Message =
    | Start
    | Stop(isEmergencyStop: bool)   // `Stop()` is `Stop(false)`
    | SetSpeed(speed: int)
    | Stopped
    | Unsupported
  {
    /** The identity the message kind is tagged with. */
    function Id(): (id: MessageId)
      ensures id <= UNSUPPORTED
      ensures Start? <==> id == START
      ensures Stop? <==> id == STOP
      ensures Stopped? <==> id == STOPPED
      ensures SetSpeed? <==> id == SET_SPEED
      ensures Unsupported? <==> id == UNSUPPORTED
    {
      match this
      case Start => START
      case Stop(_) => STOP
      case Stopped => STOPPED
      case SetSpeed(_) => SET_SPEED
      case Unsupported => UNSUPPORTED
    }
  }

  /** No two message kinds share an identity: the identity determines the
      kind, so dispatch on the identity can never confuse two kinds. */
  lemma IdDeterminesKind(m1: Message, m2: Message)
    requires m1.Id() == m2.Id()
    ensures m1.Start? == m2.Start? && m1.Stop? == m2.Stop? && m1.Stopped? == m2.Stopped?
    ensures m1.SetSpeed? == m2.SetSpeed? && m1.Unsupported? == m2.Unsupported?
  {
  }
}
