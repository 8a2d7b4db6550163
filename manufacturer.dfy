/** Java's nullable reference, as a value. */
module Optional {
  datatype Option<+T> = None | Some(value: T)
}

/** The manufacturer codes (the value of CV8) for which a product ID is
    determined, and the lookup of a code among them. */
module Manufacturers {
  import opened Optional

  datatype Manufacturer =
    | Dietz
    | Diy
    | Doehler
    | Esu
    | Harman
    | Hornby
    | Qsi
    | SoundTraxx
    | Tcs
    | TrainOMatic
    | Zimo
  {
    /** The CV8 value that identifies the manufacturer. */
    function Code(): int
    {
      match this
      case Dietz => 115
      case Diy => 13
      case Doehler => 97
      case Esu => 151
      case Harman => 98
      case Hornby => 48
      case Qsi => 113
      case SoundTraxx => 141
      case Tcs => 153
      case TrainOMatic => 78
      case Zimo => 145
    }
  }

  /** The constants of the enumeration, in declaration order (Java's
      `values()`). */
  const Values: seq<Manufacturer> :=
    [Dietz, Diy, Doehler, Esu, Harman, Hornby, Qsi, SoundTraxx, Tcs, TrainOMatic, Zimo]

  /** The constant whose code is value, or None (Java's null) when no
      constant has that code. */
  function Lookup(value: int): Option<Manufacturer>
  {
    match value
    case 115 => Some(Dietz)
    case 13 => Some(Diy)
    case 97 => Some(Doehler)
    case 151 => Some(Esu)
    case 98 => Some(Harman)
    case 48 => Some(Hornby)
    case 113 => Some(Qsi)
    case 141 => Some(SoundTraxx)
    case 153 => Some(Tcs)
    case 78 => Some(TrainOMatic)
    case 145 => Some(Zimo)
    case _ => None
  }

  /** Every constant is listed in Values, and no two share a code. */
  lemma ValuesComplete(e: Manufacturer)
    ensures e in Values
    ensures forall i :: 0 <= i < |Values| && Values[i].Code() == e.Code() ==> Values[i] == e
  {
  }

  /** Lookup(value) names exactly the manufacturer whose code is value, and
      is None for every other CV8 value. */
  lemma LookupExact(value: int, e: Manufacturer)
    ensures Lookup(value) == Some(e) <==> e.Code() == value
    ensures Lookup(value).None? <==> forall m: Manufacturer :: m.Code() != value
  {
    match e {
      case Dietz =>
      case Diy =>
      case Doehler =>
      case Esu =>
      case Harman =>
      case Hornby =>
      case Qsi =>
      case SoundTraxx =>
      case Tcs =>
      case TrainOMatic =>
      case Zimo =>
    }
    if Lookup(value).None? {
      forall m: Manufacturer ensures m.Code() != value {
        ValuesComplete(m);
      }
    } else {
      assert Lookup(value).value.Code() == value;
    }
  }

  /** `Manufacturer.forValue`: a linear search over the constants in
      declaration order, returning null (None) when no code matches. */
  method ForValue(value: int) returns (m: Option<Manufacturer>)
    ensures m == Lookup(value)
    ensures m.Some? ==> m.value.Code() == value
    ensures m.None? ==> forall i :: 0 <= i < |Values| ==> Values[i].Code() != value
  {
    for i := 0 to |Values|
      invariant forall j :: 0 <= j < i ==> Values[j].Code() != value
    {
      if Values[i].Code() == value {
        LookupExact(value, Values[i]);
        return Some(Values[i]);
      }
    }
    if Lookup(value).Some? {
      ValuesComplete(Lookup(value).value);
      LookupExact(value, Lookup(value).value);
    }
    return None;
  }
}
