/** Basic vocabulary of the synchronizer: the 64-bit time type, the ordered
    policy attributes and the three families of status codes. */
module Types {

  /** Bounds of a signed 64-bit integer. */
  const TimeMin: int := -0x8000_0000_0000_0000
  const TimeMax: int := 0x7FFF_FFFF_FFFF_FFFF

  /** A time stamp. `TimeMax` doubles as the "no candidate" sentinel. */
  type Time = t: int | TimeMin <= t <= TimeMax

  /** Strictness of a policy; the declaration order is the rank. */
  datatype Attribute = Optional | Normal | Master {
    function Rank(): nat {
      match this
      case Optional => 0
      case Normal => 1
      case Master => 2
    }
  }

  /** `a < b` on the enum values. */
  predicate Below(a: Attribute, b: Attribute) {
    a.Rank() < b.Rank()
  }

  /** Result of pushing one message into the synchronizer. */
  datatype PushStatus = Dropped | Accepted | Emitted {
    function Code(): nat {
      match this
      case Dropped => 0
      case Accepted => 1
      case Emitted => 2
    }
  }

  /** Result of peeking one policy at one time. */
  datatype PeekStatus = PeekNotReady | PeekExpired | PeekSuccess {
    function Code(): nat {
      match this
      case PeekNotReady => 10
      case PeekExpired => 11
      case PeekSuccess => 12
    }
  }

  /** Result of one attempt to emit a synchronized tuple. */
  datatype EmitStatus = EmitNotReady | EmitExpired | EmitSuccess {
    function Code(): nat {
      match this
      case EmitNotReady => 20
      case EmitExpired => 21
      case EmitSuccess => 22
    }

    /** The join loop goes on while the outcome ranks above NotReady. */
    predicate Continues() {
      Code() > EmitNotReady.Code()
    }
  }

  datatype Option<T> = None | Some(value: T)

  /** A programming fault: an index outside the configured policies. */
  datatype Fault = OutOfRange

  datatype Result<T> = Ok(value: T) | Err(fault: Fault)

  function Min(a: Time, b: Time): (r: Time)
    ensures r <= a && r <= b
    ensures r == a || r == b
  {
    if b < a then b else a
  }

  /** The attributes are strictly and totally ordered, Optional < Normal < Master. */
  lemma AttributeOrder(a: Attribute, b: Attribute, c: Attribute)
    ensures !Below(a, a)
    ensures Below(a, b) && Below(b, c) ==> Below(a, c)
    ensures a != b ==> Below(a, b) || Below(b, a)
    ensures Below(Optional, Normal) && Below(Normal, Master)
  {
  }

  /** "Above NotReady" means exactly Expired or Success. */
  lemma ContinuesIffExpiredOrSuccess(e: EmitStatus)
    ensures e.Continues() <==> (e == EmitExpired || e == EmitSuccess)
  {
  }

  /** The peek outcomes are ordered NotReady < Expired < Success and distinct. */
  lemma PeekCodesOrdered(a: PeekStatus, b: PeekStatus)
    ensures a.Code() == b.Code() <==> a == b
    ensures PeekNotReady.Code() < PeekExpired.Code() < PeekSuccess.Code()
  {
  }
}
