/** The decoder-identification state machine: one step per CV operation,
    starting from CV8 (manufacturer) and CV7 (version), then a
    manufacturer-specific sequence of CV reads and writes whose results are
    folded into `productID`.

    The steps are first written as pure functions over a Session value
    (Step1 .. Step9); the class IdentifyDecoder holds the same fields and
    updates them in place, and each of its methods is proved to do exactly
    what the matching step function says. */
module Identify {
  import opened JavaInt
  import opened Optional
  import opened Manufacturers
  import opened ProductId

  /** One operation on the programming track. */
  datatype CvOp = Read(cv: nat) | Write(cv: nat, value: Byte)

  /** What a step asks for: one more CV operation (the Java step returns
      false after issuing it), or the end of identification (it returns
      true and issues nothing). */
  datatype Action = Issue(op: CvOp) | Finish

  /** The fields of one identification run; -1 is the Java "not set" value
      and None stands for a null manufacturer. optionalCv is the flag set
      before an optional read; it is still true at the next step only if
      that read failed. */
  datatype Session = Session(
    mfgID: Option<Manufacturer>,
    intMfg: Int32,
    modelID: Int32,
    productIDhigh: Int32,
    productIDlow: Int32,
    productIDhighest: Int32,
    productIDlowest: Int32,
    productID: Int32,
    optionalCv: bool)

  const Initial: Session := Session(None, -1, -1, -1, -1, -1, -1, -1, false)

  /** A step's new session and the action it asks for. */
  datatype Transition = Transition(next: Session, action: Action)

  /** SoundTraxx Econami, Tsunami2 and Blunami. */
  predicate SoundTraxxModel(model: Int32)
  {
    70 <= model <= 72
  }

  /** Step 1: read CV8. */
  function Step1(s: Session): Transition
  {
    Transition(s, Issue(Read(8)))
  }

  /** Step 2: CV8 selects the manufacturer (None for an unknown code, whose
      raw value is still kept); then read CV7. */
  function Step2(s: Session, value: Int32): Transition
  {
    Transition(s.(mfgID := Lookup(value), intMfg := value), Issue(Read(7)))
  }

  /** Step 3: CV7 is the model; start the manufacturer's own sequence, or
      finish when the manufacturer is unknown or its sequence does not apply
      to this model. */
  function Step3(s: Session, value: Int32): Transition
  {
    var s := s.(modelID := value);
    match s.mfgID
    case None => Transition(s, Finish)
    case Some(m) =>
      match m
      case Qsi => Transition(s, Issue(Write(49, 254)))
      case Tcs => Transition(s, Issue(Read(249)))
      case Hornby =>
        if value == 254 then Transition(s.(optionalCv := true), Issue(Read(200)))
        else Transition(s.(optionalCv := true), Issue(Read(159)))
      case Zimo => Transition(s, Issue(Read(250)))
      case SoundTraxx =>
        if SoundTraxxModel(value) then Transition(s, Issue(Read(253))) else Transition(s, Finish)
      case Harman => Transition(s, Issue(Read(112)))
      case Esu =>
        if value == 255 then Transition(s, Issue(Write(31, 0))) else Transition(s, Finish)
      case Diy => Transition(s, Issue(Read(47)))
      case Doehler => Transition(s.(optionalCv := true), Issue(Read(261)))
      case TrainOMatic => Transition(s, Issue(Read(510)))
      case Dietz => Transition(s, Issue(Read(128)))
  }

  /** Step 4. Only reached with a known manufacturer (a Java switch on a
      null manufacturer would throw). */
  function Step4(s: Session, value: Int32): Transition
    requires s.mfgID.Some?
  {
    match s.mfgID.value
    case Qsi => Transition(s, Issue(Write(50, 4)))
    case Tcs =>
      if value < 129 then Transition(s.(productID := value), Finish)
      else Transition(s.(productIDlowest := value), Issue(Read(248)))
    case Hornby =>
      if s.modelID == 254 then Transition(s.(productIDlow := value), Issue(Read(200)))
      else if s.optionalCv then Transition(s, Finish)
      else if value == 143 then Transition(s.(productIDlow := value), Issue(Read(158)))
      else Transition(s.(productID := value), Finish)
    case Zimo => Transition(s.(productID := value), Finish)
    case SoundTraxx =>
      if SoundTraxxModel(s.modelID) then Transition(s.(productIDhighest := value), Issue(Read(256)))
      else Transition(s, Finish)
    case Harman => Transition(s.(productIDhigh := value), Issue(Read(113)))
    case Esu => Transition(s, Issue(Write(32, 255)))
    case Diy => Transition(s.(productIDhighest := value), Issue(Read(48)))
    case Doehler =>
      if s.optionalCv then Transition(s, Finish)
      else Transition(s.(productID := value), Finish)
    case TrainOMatic => Transition(s.(productIDhigh := value), Issue(Read(509)))
    case Dietz => Transition(s.(productID := value), Finish)
  }

  /** Step 5. */
  function Step5(s: Session, value: Int32): Transition
    requires s.mfgID.Some?
  {
    match s.mfgID.value
    case Qsi => Transition(s, Issue(Read(56)))
    case Hornby =>
      // the HN7000 and the other models share the formula
      var s := s.(productIDhigh := value);
      Transition(s.(productID := HighLowId(value, s.productIDlow)), Finish)
    case SoundTraxx =>
      if SoundTraxxModel(s.modelID) then Transition(s.(productIDlow := value), Issue(Read(255)))
      else Transition(s, Finish)
    case Harman =>
      var s := s.(productIDlow := value);
      Transition(s.(productID := HighLowId(s.productIDhigh, value)), Finish)
    case Esu => Transition(s, Issue(Read(261)))
    case Diy => Transition(s.(productIDhigh := value), Issue(Read(49)))
    case Tcs => Transition(s.(productIDlow := value), Issue(Read(111)))
    case TrainOMatic => Transition(s.(productIDlow := value), Issue(Read(508)))
    case _ => Transition(s, Finish)
  }

  /** Step 6. */
  function Step6(s: Session, value: Int32): Transition
    requires s.mfgID.Some?
  {
    match s.mfgID.value
    case Qsi => Transition(s.(productIDhigh := value), Issue(Write(50, 5)))
    case Esu => Transition(s.(productID := value), Issue(Read(262)))
    case Diy => Transition(s.(productIDlow := value), Issue(Read(50)))
    case SoundTraxx =>
      if SoundTraxxModel(s.modelID) then
        var s := s.(productIDhigh := value);
        Transition(s.(productID := SoundTraxxId(s.productIDlow, value, s.productIDhighest)), Finish)
      else Transition(s, Finish)
    case Tcs => Transition(s.(productIDhigh := value), Issue(Read(110)))
    case TrainOMatic =>
      Transition(s.(productID := TrainOMaticId(value, s.productIDlow, s.productIDhigh)), Finish)
    case _ => Transition(s, Finish)
  }

  /** Step 7. */
  function Step7(s: Session, value: Int32): Transition
    requires s.mfgID.Some?
  {
    match s.mfgID.value
    case Qsi => Transition(s, Issue(Read(56)))
    case Esu => Transition(s.(productID := Add(s.productID, Times256(value, 1))), Issue(Read(263)))
    case Diy =>
      var s := s.(productIDlowest := value);
      Transition(s.(productID := DiyId(s.productIDhighest, s.productIDhigh, s.productIDlow, value)), Finish)
    case Tcs =>
      var s := s.(productIDhighest := value);
      Transition(s.(productID := TcsId(s.productIDlowest, s.productIDlow, s.productIDhigh, value, s.modelID)), Finish)
    case _ => Transition(s, Finish)
  }

  /** Step 8. */
  function Step8(s: Session, value: Int32): Transition
    requires s.mfgID.Some?
  {
    match s.mfgID.value
    case Qsi =>
      var s := s.(productIDlow := value);
      Transition(s.(productID := QsiId(s.productIDhigh, value)), Finish)
    case Esu => Transition(s.(productID := Add(s.productID, Times256(value, 2))), Issue(Read(264)))
    case _ => Transition(s, Finish)
  }

  /** Step 9: the last one; it always finishes. Unlike steps 4 to 8 it
      compares the manufacturer instead of switching on it, so a null
      manufacturer is no error here. */
  function Step9(s: Session, value: Int32): (t: Transition)
    ensures t.action == Finish
    ensures t.next.mfgID == s.mfgID && t.next.intMfg == s.intMfg && t.next.modelID == s.modelID
  {
    if s.mfgID == Some(Esu) then Transition(s.(productID := Add(s.productID, Times256(value, 3))), Finish)
    else Transition(s, Finish)
  }

  /** The step numbered k (2 to 9) applied to the value the previous
      operation returned. */
  function Step(k: nat, s: Session, value: Int32): (t: Transition)
    requires 2 <= k <= 9
    requires k >= 4 ==> s.mfgID.Some?
    ensures k == 2 ==> t.action == Issue(Read(7)) && t.next.optionalCv == s.optionalCv
    ensures k == 3 ==> t.next.modelID == value
    ensures k >= 3 ==> t.next.mfgID == s.mfgID && t.next.intMfg == s.intMfg
    ensures k >= 4 ==> t.next.modelID == s.modelID
    ensures k >= 3 && t.action.Issue? ==> t.next.mfgID.Some?
    ensures k == 9 ==> t.action == Finish
  {
    match k
    case 2 => Step2(s, value)
    case 3 => Step3(s, value)
    case 4 => Step4(s, value)
    case 5 => Step5(s, value)
    case 6 => Step6(s, value)
    case 7 => Step7(s, value)
    case 8 => Step8(s, value)
    case 9 => Step9(s, value)
  }

  /** The three values `statusUpdate("Done")` hands to `done`: the raw CV8
      value, the model and the product ID. */
  datatype Identity = Identity(mfg: Int32, model: Int32, productID: Int32)

  /** What a session reports when identification is done. */
  function Report(s: Session): Identity
  {
    Identity(s.intMfg, s.modelID, s.productID)
  }

  /** One identification run, its fields updated in place. The optional-CV
      flag is kept here too; the step driver that sets it back after a
      successful read is not part of this class. */
  class IdentifyDecoder {
    var mfgID: Option<Manufacturer>
    var intMfg: Int32
    var modelID: Int32
    var productIDhigh: Int32
    var productIDlow: Int32
    var productIDhighest: Int32
    var productIDlowest: Int32
    var productID: Int32
    var optionalCv: bool

    /** The fields as a Session value. */
    function State(): Session
      reads this
    {
      Session(mfgID, intMfg, modelID, productIDhigh, productIDlow,
              productIDhighest, productIDlowest, productID, optionalCv)
    }

    constructor ()
      ensures State() == Initial
    {
      mfgID := None;
      intMfg := -1;
      modelID := -1;
      productIDhigh := -1;
      productIDlow := -1;
      productIDhighest := -1;
      productIDlowest := -1;
      productID := -1;
      optionalCv := false;
    }

    method Test1() returns (act: Action)
      ensures act == Issue(Read(8))
      ensures act == Step1(State()).action
    {
      act := Issue(Read(8));
    }

    method Test2(value: Int32) returns (act: Action)
      modifies this
      ensures State() == Step2(old(State()), value).next
      ensures act == Step2(old(State()), value).action
    {
      mfgID := ForValue(value);
      intMfg := value;
      act := Issue(Read(7));
    }

    method Test3(value: Int32) returns (act: Action)
      modifies this
      ensures State() == Step3(old(State()), value).next
      ensures act == Step3(old(State()), value).action
    {
      modelID := value;
      if mfgID.None? {
        return Finish;
      }
      match mfgID.value {
        case Qsi =>
          act := Issue(Write(49, 254));
        case Tcs =>
          act := Issue(Read(249));
        case Hornby =>
          if modelID == 254 {
            optionalCv := true;
            act := Issue(Read(200));
          } else {
            optionalCv := true;
            act := Issue(Read(159));
          }
        case Zimo =>
          act := Issue(Read(250));
        case SoundTraxx =>
          if SoundTraxxModel(modelID) {
            act := Issue(Read(253));
          } else {
            act := Finish;
          }
        case Harman =>
          act := Issue(Read(112));
        case Esu =>
          if modelID == 255 {
            act := Issue(Write(31, 0));
          } else {
            act := Finish;
          }
        case Diy =>
          act := Issue(Read(47));
        case Doehler =>
          optionalCv := true;
          act := Issue(Read(261));
        case TrainOMatic =>
          act := Issue(Read(510));
        case Dietz =>
          act := Issue(Read(128));
      }
    }

    method Test4(value: Int32) returns (act: Action)
      requires mfgID.Some?
      modifies this
      ensures State() == Step4(old(State()), value).next
      ensures act == Step4(old(State()), value).action
    {
      match mfgID.value {
        case Qsi =>
          act := Issue(Write(50, 4));
        case Tcs =>
          if value < 129 {
            productID := value;
            act := Finish;
          } else {
            productIDlowest := value;
            act := Issue(Read(248));
          }
        case Hornby =>
          if modelID == 254 {
            productIDlow := value;
            act := Issue(Read(200));
          } else if optionalCv {
            act := Finish;
          } else if value == 143 {
            productIDlow := value;
            act := Issue(Read(158));
          } else {
            productID := value;
            act := Finish;
          }
        case Zimo =>
          productID := value;
          act := Finish;
        case SoundTraxx =>
          if SoundTraxxModel(modelID) {
            productIDhighest := value;
            act := Issue(Read(256));
          } else {
            act := Finish;
          }
        case Harman =>
          productIDhigh := value;
          act := Issue(Read(113));
        case Esu =>
          act := Issue(Write(32, 255));
        case Diy =>
          productIDhighest := value;
          act := Issue(Read(48));
        case Doehler =>
          if optionalCv {
            return Finish;
          }
          productID := value;
          act := Finish;
        case TrainOMatic =>
          productIDhigh := value;
          act := Issue(Read(509));
        case Dietz =>
          productID := value;
          act := Finish;
      }
    }

    method Test5(value: Int32) returns (act: Action)
      requires mfgID.Some?
      modifies this
      ensures State() == Step5(old(State()), value).next
      ensures act == Step5(old(State()), value).action
    {
      match mfgID.value {
        case Qsi =>
          act := Issue(Read(56));
        case Hornby =>
          productIDhigh := value;
          productID := HighLowId(productIDhigh, productIDlow);
          act := Finish;
        case SoundTraxx =>
          if SoundTraxxModel(modelID) {
            productIDlow := value;
            act := Issue(Read(255));
          } else {
            act := Finish;
          }
        case Harman =>
          productIDlow := value;
          productID := HighLowId(productIDhigh, productIDlow);
          act := Finish;
        case Esu =>
          act := Issue(Read(261));
        case Diy =>
          productIDhigh := value;
          act := Issue(Read(49));
        case Tcs =>
          productIDlow := value;
          act := Issue(Read(111));
        case TrainOMatic =>
          productIDlow := value;
          act := Issue(Read(508));
        case _ =>
          act := Finish;
      }
    }

    method Test6(value: Int32) returns (act: Action)
      requires mfgID.Some?
      modifies this
      ensures State() == Step6(old(State()), value).next
      ensures act == Step6(old(State()), value).action
    {
      match mfgID.value {
        case Qsi =>
          productIDhigh := value;
          act := Issue(Write(50, 5));
        case Esu =>
          productID := value;
          act := Issue(Read(262));
        case Diy =>
          productIDlow := value;
          act := Issue(Read(50));
        case SoundTraxx =>
          if SoundTraxxModel(modelID) {
            productIDhigh := value;
            productID := SoundTraxxId(productIDlow, productIDhigh, productIDhighest);
          }
          act := Finish;
        case Tcs =>
          productIDhigh := value;
          act := Issue(Read(110));
        case TrainOMatic =>
          productID := TrainOMaticId(value, productIDlow, productIDhigh);
          act := Finish;
        case _ =>
          act := Finish;
      }
    }

    method Test7(value: Int32) returns (act: Action)
      requires mfgID.Some?
      modifies this
      ensures State() == Step7(old(State()), value).next
      ensures act == Step7(old(State()), value).action
    {
      match mfgID.value {
        case Qsi =>
          act := Issue(Read(56));
        case Esu =>
          productID := Add(productID, Times256(value, 1));
          act := Issue(Read(263));
        case Diy =>
          productIDlowest := value;
          productID := DiyId(productIDhighest, productIDhigh, productIDlow, productIDlowest);
          act := Finish;
        case Tcs =>
          productIDhighest := value;
          productID := TcsId(productIDlowest, productIDlow, productIDhigh, productIDhighest, modelID);
          act := Finish;
        case _ =>
          act := Finish;
      }
    }

    method Test8(value: Int32) returns (act: Action)
      requires mfgID.Some?
      modifies this
      ensures State() == Step8(old(State()), value).next
      ensures act == Step8(old(State()), value).action
    {
      match mfgID.value {
        case Qsi =>
          productIDlow := value;
          productID := QsiId(productIDhigh, productIDlow);
          act := Finish;
        case Esu =>
          productID := Add(productID, Times256(value, 2));
          act := Issue(Read(264));
        case _ =>
          act := Finish;
      }
    }

    method Test9(value: Int32) returns (act: Action)
      modifies this
      ensures State() == Step9(old(State()), value).next
      ensures act == Finish
    {
      if mfgID == Some(Esu) {
        productID := Add(productID, Times256(value, 3));
      }
      act := Finish;
    }

    /** `statusUpdate`: only the message "Done" hands the triple
        (manufacturer code, model, productID) on; the message text itself is
        advisory. */
    method StatusUpdate(s: string) returns (report: Option<Identity>)
      ensures report.Some? <==> s == "Done"
      ensures report.Some? ==> report.value == Identity(intMfg, modelID, productID)
    {
      if s == "Done" {
        report := Some(Report(State()));
      } else {
        report := None;
      }
    }
  }
}
