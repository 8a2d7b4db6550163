/** What whole runs do, manufacturer by manufacturer: the CV operations
    issued, in order, how the run ends and the triple (CV8, CV7, productID)
    that `statusUpdate("Done")` hands on. Replies to writes carry values no
    step looks at, so they are arbitrary here. */
module IdentifyProperties {
  import opened JavaInt
  import opened Optional
  import opened Manufacturers
  import opened ProductId
  import opened Identify
  import opened IdentifyRun

  // ---------------------------------------------------------------------
  // Runs that end at step 3

  /** A CV8 value that is none of the eleven codes ends the run at step 3:
      nothing is issued after the CV7 read, productID stays -1, and the raw
      CV8 value is still reported. */
  lemma UnknownManufacturerEndsAtStep3(replies: seq<Reply>, cv8: Int32, cv7: Int32)
    requires Lookup(cv8).None?
    requires 2 <= |replies| && replies[0] == Ok(cv8) && replies[1] == Ok(cv7)
    ensures var o := Run(replies);
      && o.status == Finished
      && o.ops == [Read(8), Read(7)]
      && o.session.mfgID.None?
      && Report(o.session) == Identity(cv8, cv7, -1)
  {
    RunStart(replies);
    var s2 := Initial.(mfgID := None, intMfg := cv8);
    DriveStep(2, Initial, replies, 0, [Read(8)], s2, Issue(Read(7)));
    DriveStep(3, s2, replies, 1, [Read(8)] + [Read(7)], s2.(modelID := cv7), Finish);
    assert [Read(8)] + [Read(7)] == [Read(8), Read(7)];
  }

  /** ESU with a version other than 255, and SoundTraxx with a version
      outside 70..72, also end at step 3 with productID -1. */
  lemma ModelGatedEndsAtStep3(replies: seq<Reply>, cv8: Int32, cv7: Int32)
    requires (cv8 == 151 && cv7 != 255) || (cv8 == 141 && !(70 <= cv7 <= 72))
    requires 2 <= |replies| && replies[0] == Ok(cv8) && replies[1] == Ok(cv7)
    ensures var o := Run(replies);
      && o.status == Finished
      && o.ops == [Read(8), Read(7)]
      && Report(o.session) == Identity(cv8, cv7, -1)
  {
    RunStart(replies);
    var s2 := Initial.(mfgID := Lookup(cv8), intMfg := cv8);
    DriveStep(2, Initial, replies, 0, [Read(8)], s2, Issue(Read(7)));
    DriveStep(3, s2, replies, 1, [Read(8)] + [Read(7)], s2.(modelID := cv7), Finish);
    assert [Read(8)] + [Read(7)] == [Read(8), Read(7)];
  }

  // ---------------------------------------------------------------------
  // Single-CV manufacturers

  /** Dietz: productID is CV128. */
  lemma DietzRun(replies: seq<Reply>, cv7: Int32, cv128: Int32)
    requires 3 <= |replies| && replies[0] == Ok(115) && replies[1] == Ok(cv7)
    requires replies[2] == Ok(cv128)
    ensures var o := Run(replies);
      && o.status == Finished
      && o.ops == [Read(8), Read(7), Read(128)]
      && Report(o.session) == Identity(115, cv7, cv128)
  {
    RunStart(replies);
    var s2 := Initial.(mfgID := Some(Dietz), intMfg := 115);
    var s3 := s2.(modelID := cv7);
    var ops := [Read(8)];
    DriveStep(2, Initial, replies, 0, ops, s2, Issue(Read(7)));
    ops := ops + [Read(7)];
    DriveStep(3, s2, replies, 1, ops, s3, Issue(Read(128)));
    ops := ops + [Read(128)];
    DriveStep(4, s3, replies, 2, ops, s3.(productID := cv128), Finish);
    assert ops == [Read(8), Read(7), Read(128)];
  }

  /** Zimo: productID is CV250. */
  lemma ZimoRun(replies: seq<Reply>, cv7: Int32, cv250: Int32)
    requires 3 <= |replies| && replies[0] == Ok(145) && replies[1] == Ok(cv7)
    requires replies[2] == Ok(cv250)
    ensures var o := Run(replies);
      && o.status == Finished
      && o.ops == [Read(8), Read(7), Read(250)]
      && Report(o.session) == Identity(145, cv7, cv250)
  {
    RunStart(replies);
    var s2 := Initial.(mfgID := Some(Zimo), intMfg := 145);
    var s3 := s2.(modelID := cv7);
    var ops := [Read(8)];
    DriveStep(2, Initial, replies, 0, ops, s2, Issue(Read(7)));
    ops := ops + [Read(7)];
    DriveStep(3, s2, replies, 1, ops, s3, Issue(Read(250)));
    ops := ops + [Read(250)];
    DriveStep(4, s3, replies, 2, ops, s3.(productID := cv250), Finish);
    assert ops == [Read(8), Read(7), Read(250)];
  }

  /** Doehler: CV261 is optional. When it is read, productID is its value;
      when the read fails, the run ends with productID still -1. */
  lemma DoehlerRun(replies: seq<Reply>, cv7: Int32, cv261: Reply)
    requires 3 <= |replies| && replies[0] == Ok(97) && replies[1] == Ok(cv7) && replies[2] == cv261
    ensures var o := Run(replies);
      && o.status == Finished
      && o.ops == [Read(8), Read(7), Read(261)]
      && Report(o.session) == Identity(97, cv7, if cv261.Ok? then cv261.value else -1)
  {
    RunStart(replies);
    var s2 := Initial.(mfgID := Some(Doehler), intMfg := 97);
    var s3 := s2.(modelID := cv7, optionalCv := true);
    var ops := [Read(8)];
    DriveStep(2, Initial, replies, 0, ops, s2, Issue(Read(7)));
    ops := ops + [Read(7)];
    DriveStep(3, s2, replies, 1, ops, s3, Issue(Read(261)));
    ops := ops + [Read(261)];
    if cv261.Ok? {
      DriveStep(4, s3, replies, 2, ops, s3.(optionalCv := false, productID := cv261.value), Finish);
    } else {
      DriveStep(4, s3, replies, 2, ops, s3, Finish);
    }
    assert ops == [Read(8), Read(7), Read(261)];
  }

  // ---------------------------------------------------------------------
  // Hornby

  /** Hornby other than the HN7000 (version 254): CV159 is optional. A
      failed read leaves productID -1; a value other than 143 is the
      productID. */
  lemma HornbyRun(replies: seq<Reply>, cv7: Int32, cv159: Reply)
    requires cv7 != 254
    requires cv159.Ok? ==> cv159.value != 143
    requires 3 <= |replies| && replies[0] == Ok(48) && replies[1] == Ok(cv7) && replies[2] == cv159
    ensures var o := Run(replies);
      && o.status == Finished
      && o.ops == [Read(8), Read(7), Read(159)]
      && Report(o.session) == Identity(48, cv7, if cv159.Ok? then cv159.value else -1)
  {
    RunStart(replies);
    var s2 := Initial.(mfgID := Some(Hornby), intMfg := 48);
    var s3 := s2.(modelID := cv7, optionalCv := true);
    var ops := [Read(8)];
    DriveStep(2, Initial, replies, 0, ops, s2, Issue(Read(7)));
    ops := ops + [Read(7)];
    DriveStep(3, s2, replies, 1, ops, s3, Issue(Read(159)));
    ops := ops + [Read(159)];
    if cv159.Ok? {
      DriveStep(4, s3, replies, 2, ops, s3.(optionalCv := false, productID := cv159.value), Finish);
    } else {
      DriveStep(4, s3, replies, 2, ops, s3, Finish);
    }
    assert ops == [Read(8), Read(7), Read(159)];
  }

  /** Hornby other than the HN7000 when CV159 is 143: CV158 is read as the
      high byte and productID is `(CV158 << 8) | 143`. That read is not
      optional, so its failure stops the run with productID still -1. */
  lemma HornbyExtendedRun(replies: seq<Reply>, cv7: Int32, cv158: Reply)
    requires cv7 != 254
    requires 4 <= |replies| && replies[0] == Ok(48) && replies[1] == Ok(cv7)
    requires replies[2] == Ok(143) && replies[3] == cv158
    ensures var o := Run(replies);
      && o.ops == [Read(8), Read(7), Read(159), Read(158)]
      && (cv158.Ok? ==> o.status == Finished && Report(o.session) == Identity(48, cv7, HighLowId(cv158.value, 143)))
      && (cv158.Ok? && 0 <= cv158.value < 256 ==> o.session.productID == cv158.value * 256 + 143)
      && (cv158.Failed? ==> o.status == Unhandled && o.session.productID == -1)
  {
    RunStart(replies);
    var s2 := Initial.(mfgID := Some(Hornby), intMfg := 48);
    var s3 := s2.(modelID := cv7, optionalCv := true);
    var s4 := s3.(optionalCv := false, productIDlow := 143);
    var ops := [Read(8)];
    DriveStep(2, Initial, replies, 0, ops, s2, Issue(Read(7)));
    ops := ops + [Read(7)];
    DriveStep(3, s2, replies, 1, ops, s3, Issue(Read(159)));
    ops := ops + [Read(159)];
    DriveStep(4, s3, replies, 2, ops, s4, Issue(Read(158)));
    ops := ops + [Read(158)];
    if cv158.Ok? {
      var v := cv158.value;
      DriveStep(5, s4, replies, 3, ops, s4.(productIDhigh := v, productID := HighLowId(v, 143)), Finish);
      if 0 <= v < 256 {
        HighLowIdBytes(v, 143);
      }
    } else {
      DriveFailedHalts(5, s4, replies, 3, ops);
    }
    assert ops == [Read(8), Read(7), Read(159), Read(158)];
  }

  /** The HN7000 (Hornby, version 254) reads CV200 twice: the first reply is
      the low byte and the second the high byte, and productID is
      `(high << 8) | low`. Only the first read is marked optional, but the
      flag is still set at the second read when the first one failed, so a
      second failure is then passed over too. */
  lemma HornbyHn7000Run(replies: seq<Reply>, first: Reply, second: Reply)
    requires 4 <= |replies| && replies[0] == Ok(48) && replies[1] == Ok(254) && replies[2] == first
    requires replies[3] == second
    ensures var o := Run(replies);
      && o.ops == [Read(8), Read(7), Read(200), Read(200)]
      && (first.Ok? && second.Failed? ==> o.status == Unhandled && o.session.productID == -1)
      && (first.Failed? || second.Ok? ==>
            o.status == Finished && Report(o.session) == Identity(48, 254, HighLowId(second.value, first.value)))
      && (first.Ok? && second.Ok? && 0 <= first.value < 256 && 0 <= second.value < 256 ==>
            o.session.productID == second.value * 256 + first.value)
  {
    RunStart(replies);
    var s2 := Initial.(mfgID := Some(Hornby), intMfg := 48);
    var s3 := s2.(modelID := 254, optionalCv := true);
    var s4 := (if first.Ok? then s3.(optionalCv := false) else s3).(productIDlow := first.value);
    var ops := [Read(8)];
    DriveStep(2, Initial, replies, 0, ops, s2, Issue(Read(7)));
    ops := ops + [Read(7)];
    DriveStep(3, s2, replies, 1, ops, s3, Issue(Read(200)));
    ops := ops + [Read(200)];
    DriveStep(4, s3, replies, 2, ops, s4, Issue(Read(200)));
    ops := ops + [Read(200)];
    if first.Ok? && second.Failed? {
      DriveFailedHalts(5, s4, replies, 3, ops);
    } else {
      var seen := if second.Ok? then s4.(optionalCv := false) else s4;
      var high := second.value;
      DriveStep(5, s4, replies, 3, ops, seen.(productIDhigh := high, productID := HighLowId(high, first.value)), Finish);
      if first.Ok? && 0 <= first.value < 256 && 0 <= high < 256 {
        HighLowIdBytes(high, first.value);
      }
    }
    assert ops == [Read(8), Read(7), Read(200), Read(200)];
  }

  // ---------------------------------------------------------------------
  // Multi-CV manufacturers with fixed formulas

  /** Harman: CV112 then CV113; productID is `(CV112 << 8) | CV113`. */
  lemma HarmanRun(replies: seq<Reply>, cv7: Int32, cv112: Byte, cv113: Byte)
    requires 4 <= |replies| && replies[0] == Ok(98) && replies[1] == Ok(cv7)
    requires replies[2] == Ok(cv112) && replies[3] == Ok(cv113)
    ensures var o := Run(replies);
      && o.status == Finished
      && o.ops == [Read(8), Read(7), Read(112), Read(113)]
      && Report(o.session) == Identity(98, cv7, cv112 * 256 + cv113)
  {
    RunStart(replies);
    var s2 := Initial.(mfgID := Some(Harman), intMfg := 98);
    var s3 := s2.(modelID := cv7);
    var s4 := s3.(productIDhigh := cv112);
    var ops := [Read(8)];
    DriveStep(2, Initial, replies, 0, ops, s2, Issue(Read(7)));
    ops := ops + [Read(7)];
    DriveStep(3, s2, replies, 1, ops, s3, Issue(Read(112)));
    ops := ops + [Read(112)];
    DriveStep(4, s3, replies, 2, ops, s4, Issue(Read(113)));
    ops := ops + [Read(113)];
    DriveStep(5, s4, replies, 3, ops, s4.(productIDlow := cv113, productID := HighLowId(cv112, cv113)), Finish);
    assert ops == [Read(8), Read(7), Read(112), Read(113)];
    HighLowIdBytes(cv112, cv113);
  }

  /** QSI from step 4: write 4 to CV50, read the high byte from CV56,
      write 5 to CV50, read the low byte from CV56; productID is
      `high * 256 + low`. */
  lemma QsiFrom4(s: Session, replies: seq<Reply>, i: nat, ops: seq<CvOp>, w1: Int32, w2: Int32, high: Int32, w3: Int32, low: Int32)
    requires s.mfgID == Some(Qsi) && !s.optionalCv
    requires i + 5 <= |replies| && replies[i] == Ok(w1) && replies[i + 1] == Ok(w2)
    requires replies[i + 2] == Ok(high) && replies[i + 3] == Ok(w3) && replies[i + 4] == Ok(low)
    ensures var o := Drive(4, s, replies, i, ops);
      && o.status == Finished
      && o.ops == ops + [Write(50, 4), Read(56), Write(50, 5), Read(56)]
      && Report(o.session) == Identity(s.intMfg, s.modelID, QsiId(high, low))
  {
    var s6 := s.(productIDhigh := high);
    DriveStep(4, s, replies, i, ops, s, Issue(Write(50, 4)));
    DriveStep(5, s, replies, i + 1, ops + [Write(50, 4)], s, Issue(Read(56)));
    DriveStep(6, s, replies, i + 2, ops + [Write(50, 4)] + [Read(56)], s6, Issue(Write(50, 5)));
    DriveStep(7, s6, replies, i + 3, ops + [Write(50, 4)] + [Read(56)] + [Write(50, 5)], s6, Issue(Read(56)));
    DriveStep(8, s6, replies, i + 4, ops + [Write(50, 4)] + [Read(56)] + [Write(50, 5)] + [Read(56)],
              s6.(productIDlow := low, productID := QsiId(high, low)), Finish);
    assert ops + [Write(50, 4)] + [Read(56)] + [Write(50, 5)] + [Read(56)] ==
      ops + [Write(50, 4), Read(56), Write(50, 5), Read(56)];
  }

  /** QSI: write 254 to CV49 and 4 to CV50, read the high byte from CV56,
      write 5 to CV50, read the low byte from CV56; productID is
      `high * 256 + low`. */
  lemma QsiRun(replies: seq<Reply>, cv7: Int32, w1: Int32, w2: Int32, high: Byte, w3: Int32, low: Byte)
    requires 7 <= |replies| && replies[0] == Ok(113) && replies[1] == Ok(cv7)
    requires replies[2] == Ok(w1) && replies[3] == Ok(w2) && replies[4] == Ok(high)
    requires replies[5] == Ok(w3) && replies[6] == Ok(low)
    ensures var o := Run(replies);
      && o.status == Finished
      && o.ops == [Read(8), Read(7), Write(49, 254), Write(50, 4), Read(56), Write(50, 5), Read(56)]
      && Report(o.session) == Identity(113, cv7, high * 256 + low)
  {
    RunStart(replies);
    var s2 := Initial.(mfgID := Some(Qsi), intMfg := 113);
    var s3 := s2.(modelID := cv7);
    var ops := [Read(8), Read(7), Write(49, 254)];
    DriveStep(2, Initial, replies, 0, [Read(8)], s2, Issue(Read(7)));
    DriveStep(3, s2, replies, 1, [Read(8)] + [Read(7)], s3, Issue(Write(49, 254)));
    assert [Read(8)] + [Read(7)] + [Write(49, 254)] == ops;
    QsiFrom4(s3, replies, 2, ops, w1, w2, high, w3, low);
    assert ops + [Write(50, 4), Read(56), Write(50, 5), Read(56)] ==
      [Read(8), Read(7), Write(49, 254), Write(50, 4), Read(56), Write(50, 5), Read(56)];
    QsiIdBytes(high, low);
  }

  /** Train-O-Matic from step 4: CV510, CV509 and CV508 are read in turn
      and productID is `CV508 + (CV509 * 256) + (CV510 * 256 * 256)`. */
  lemma TrainOMaticFrom4(s: Session, replies: seq<Reply>, i: nat, ops: seq<CvOp>, cv510: Int32, cv509: Int32, cv508: Int32)
    requires s.mfgID == Some(TrainOMatic) && !s.optionalCv
    requires i + 3 <= |replies| && replies[i] == Ok(cv510) && replies[i + 1] == Ok(cv509) && replies[i + 2] == Ok(cv508)
    ensures var o := Drive(4, s, replies, i, ops);
      && o.status == Finished
      && o.ops == ops + [Read(509), Read(508)]
      && Report(o.session) == Identity(s.intMfg, s.modelID, TrainOMaticId(cv508, cv509, cv510))
  {
    var s4 := s.(productIDhigh := cv510);
    var s5 := s4.(productIDlow := cv509);
    DriveStep(4, s, replies, i, ops, s4, Issue(Read(509)));
    DriveStep(5, s4, replies, i + 1, ops + [Read(509)], s5, Issue(Read(508)));
    DriveStep(6, s5, replies, i + 2, ops + [Read(509)] + [Read(508)], s5.(productID := TrainOMaticId(cv508, cv509, cv510)), Finish);
    assert ops + [Read(509)] + [Read(508)] == ops + [Read(509), Read(508)];
  }

  /** Train-O-Matic: CV510, CV509, CV508; on bytes productID is
      `CV508 + 256 * CV509 + 65536 * CV510`, whose three bytes give the CVs
      back. */
  lemma TrainOMaticRun(replies: seq<Reply>, cv7: Int32, cv510: Byte, cv509: Byte, cv508: Byte)
    requires 5 <= |replies| && replies[0] == Ok(78) && replies[1] == Ok(cv7)
    requires replies[2] == Ok(cv510) && replies[3] == Ok(cv509) && replies[4] == Ok(cv508)
    ensures var o := Run(replies);
      && o.status == Finished
      && o.ops == [Read(8), Read(7), Read(510), Read(509), Read(508)]
      && Report(o.session) == Identity(78, cv7, cv508 + 256 * cv509 + 65536 * cv510)
      && ToBytes(o.session.productID, 3) == [cv508, cv509, cv510]
  {
    RunStart(replies);
    var s2 := Initial.(mfgID := Some(TrainOMatic), intMfg := 78);
    var s3 := s2.(modelID := cv7);
    var ops := [Read(8), Read(7), Read(510)];
    DriveStep(2, Initial, replies, 0, [Read(8)], s2, Issue(Read(7)));
    DriveStep(3, s2, replies, 1, [Read(8)] + [Read(7)], s3, Issue(Read(510)));
    assert [Read(8)] + [Read(7)] + [Read(510)] == ops;
    var o := Run(replies);
    assert o == Drive(4, s3, replies, 2, ops);
    TrainOMaticFrom4(s3, replies, 2, ops, cv510, cv509, cv508);
    assert ops + [Read(509), Read(508)] == [Read(8), Read(7), Read(510), Read(509), Read(508)];
    TrainOMaticIdBytes(cv508, cv509, cv510);
  }

  /** DIY from step 4: CV47, CV48, CV49 and CV50 are shifted in, most
      significant first. */
  lemma DiyFrom4(s: Session, replies: seq<Reply>, i: nat, ops: seq<CvOp>, cv47: Int32, cv48: Int32, cv49: Int32, cv50: Int32)
    requires s.mfgID == Some(Diy) && !s.optionalCv
    requires i + 4 <= |replies| && replies[i] == Ok(cv47) && replies[i + 1] == Ok(cv48)
    requires replies[i + 2] == Ok(cv49) && replies[i + 3] == Ok(cv50)
    ensures var o := Drive(4, s, replies, i, ops);
      && o.status == Finished
      && o.ops == ops + [Read(48), Read(49), Read(50)]
      && Report(o.session) == Identity(s.intMfg, s.modelID, DiyId(cv47, cv48, cv49, cv50))
  {
    var s4 := s.(productIDhighest := cv47);
    var s5 := s4.(productIDhigh := cv48);
    var s6 := s5.(productIDlow := cv49);
    DriveStep(4, s, replies, i, ops, s4, Issue(Read(48)));
    DriveStep(5, s4, replies, i + 1, ops + [Read(48)], s5, Issue(Read(49)));
    DriveStep(6, s5, replies, i + 2, ops + [Read(48)] + [Read(49)], s6, Issue(Read(50)));
    DriveStep(7, s6, replies, i + 3, ops + [Read(48)] + [Read(49)] + [Read(50)],
              s6.(productIDlowest := cv50, productID := DiyId(cv47, cv48, cv49, cv50)), Finish);
    assert ops + [Read(48)] + [Read(49)] + [Read(50)] == ops + [Read(48), Read(49), Read(50)];
  }

  /** DIY: CV47, CV48, CV49, CV50, a big-endian four-byte productID
      narrowed to int; its bit pattern gives the CVs back. */
  lemma DiyRun(replies: seq<Reply>, cv7: Int32, cv47: Byte, cv48: Byte, cv49: Byte, cv50: Byte)
    requires 6 <= |replies| && replies[0] == Ok(13) && replies[1] == Ok(cv7)
    requires replies[2] == Ok(cv47) && replies[3] == Ok(cv48) && replies[4] == Ok(cv49)
    requires replies[5] == Ok(cv50)
    ensures var o := Run(replies);
      && o.status == Finished
      && o.ops == [Read(8), Read(7), Read(47), Read(48), Read(49), Read(50)]
      && Report(o.session) == Identity(13, cv7, Wrap(LittleEndian([cv50, cv49, cv48, cv47])))
      && ToBytes(Unsigned(o.session.productID), 4) == [cv50, cv49, cv48, cv47]
  {
    RunStart(replies);
    var s2 := Initial.(mfgID := Some(Diy), intMfg := 13);
    var s3 := s2.(modelID := cv7);
    var ops := [Read(8), Read(7), Read(47)];
    DriveStep(2, Initial, replies, 0, [Read(8)], s2, Issue(Read(7)));
    DriveStep(3, s2, replies, 1, [Read(8)] + [Read(7)], s3, Issue(Read(47)));
    assert [Read(8)] + [Read(7)] + [Read(47)] == ops;
    DiyFrom4(s3, replies, 2, ops, cv47, cv48, cv49, cv50);
    assert ops + [Read(48), Read(49), Read(50)] == [Read(8), Read(7), Read(47), Read(48), Read(49), Read(50)];
    DiyIdBytes(cv47, cv48, cv49, cv50);
  }

  /** SoundTraxx from step 4, for a model of 70..72: CV253, CV256 and
      CV255 are read and combined into productID. */
  lemma SoundTraxxFrom4(s: Session, replies: seq<Reply>, i: nat, ops: seq<CvOp>, cv253: Int32, cv256: Int32, cv255: Int32)
    requires s.mfgID == Some(SoundTraxx) && !s.optionalCv && 70 <= s.modelID <= 72
    requires i + 3 <= |replies| && replies[i] == Ok(cv253) && replies[i + 1] == Ok(cv256) && replies[i + 2] == Ok(cv255)
    ensures var o := Drive(4, s, replies, i, ops);
      && o.status == Finished
      && o.ops == ops + [Read(256), Read(255)]
      && Report(o.session) == Identity(s.intMfg, s.modelID, SoundTraxxId(cv256, cv255, cv253))
  {
    var s4 := s.(productIDhighest := cv253);
    var s5 := s4.(productIDlow := cv256);
    DriveStep(4, s, replies, i, ops, s4, Issue(Read(256)));
    DriveStep(5, s4, replies, i + 1, ops + [Read(256)], s5, Issue(Read(255)));
    DriveStep(6, s5, replies, i + 2, ops + [Read(256)] + [Read(255)],
              s5.(productIDhigh := cv255, productID := SoundTraxxId(cv256, cv255, cv253)), Finish);
    assert ops + [Read(256)] + [Read(255)] == ops + [Read(256), Read(255)];
  }

  /** SoundTraxx Econami, Tsunami2 and Blunami (version 70..72): CV253,
      CV256, CV255; productID is `CV256 | ((CV255 & 7) << 8) | (CV253 << 11)`. */
  lemma SoundTraxxRun(replies: seq<Reply>, cv7: Int32, cv253: Byte, cv256: Byte, cv255: Byte)
    requires 70 <= cv7 <= 72
    requires 5 <= |replies| && replies[0] == Ok(141) && replies[1] == Ok(cv7)
    requires replies[2] == Ok(cv253) && replies[3] == Ok(cv256) && replies[4] == Ok(cv255)
    ensures var o := Run(replies);
      && o.status == Finished
      && o.ops == [Read(8), Read(7), Read(253), Read(256), Read(255)]
      && Report(o.session) == Identity(141, cv7, cv256 + 256 * (cv255 % 8) + 2048 * cv253)
  {
    RunStart(replies);
    var s2 := Initial.(mfgID := Some(SoundTraxx), intMfg := 141);
    var s3 := s2.(modelID := cv7);
    var ops := [Read(8), Read(7), Read(253)];
    DriveStep(2, Initial, replies, 0, [Read(8)], s2, Issue(Read(7)));
    DriveStep(3, s2, replies, 1, [Read(8)] + [Read(7)], s3, Issue(Read(253)));
    assert [Read(8)] + [Read(7)] + [Read(253)] == ops;
    SoundTraxxFrom4(s3, replies, 2, ops, cv253, cv256, cv255);
    assert ops + [Read(256), Read(255)] == [Read(8), Read(7), Read(253), Read(256), Read(255)];
    SoundTraxxIdBytes(cv256, cv255, cv253);
  }

  /** ESU from step 6: CV261 starts productID and CV262, CV263, CV264 are
      each added in at their byte position. */
  lemma EsuFrom6(s: Session, replies: seq<Reply>, i: nat, ops: seq<CvOp>, b261: Int32, b262: Int32, b263: Int32, b264: Int32)
    requires s.mfgID == Some(Esu) && !s.optionalCv
    requires i + 4 <= |replies| && replies[i] == Ok(b261) && replies[i + 1] == Ok(b262)
    requires replies[i + 2] == Ok(b263) && replies[i + 3] == Ok(b264)
    ensures var o := Drive(6, s, replies, i, ops);
      && o.status == Finished
      && o.ops == ops + [Read(262), Read(263), Read(264)]
      && Report(o.session) == Identity(s.intMfg, s.modelID, EsuId(b261, b262, b263, b264))
  {
    var s6 := s.(productID := b261);
    var s7 := s6.(productID := Add(b261, Times256(b262, 1)));
    var s8 := s7.(productID := Add(s7.productID, Times256(b263, 2)));
    DriveStep(6, s, replies, i, ops, s6, Issue(Read(262)));
    DriveStep(7, s6, replies, i + 1, ops + [Read(262)], s7, Issue(Read(263)));
    DriveStep(8, s7, replies, i + 2, ops + [Read(262)] + [Read(263)], s8, Issue(Read(264)));
    DriveStep(9, s8, replies, i + 3, ops + [Read(262)] + [Read(263)] + [Read(264)],
              s8.(productID := EsuId(b261, b262, b263, b264)), Finish);
    assert ops + [Read(262)] + [Read(263)] + [Read(264)] == ops + [Read(262), Read(263), Read(264)];
  }

  /** ESU from step 4: the write of 255 to CV32 and the read of CV261 are
      issued, then the four bytes are folded in from step 6 on. */
  lemma EsuFrom4(s: Session, replies: seq<Reply>, i: nat, ops: seq<CvOp>, w1: Int32, w2: Int32, b261: Int32, b262: Int32, b263: Int32, b264: Int32)
    requires s.mfgID == Some(Esu) && !s.optionalCv
    requires i + 6 <= |replies| && replies[i] == Ok(w1) && replies[i + 1] == Ok(w2)
    requires replies[i + 2] == Ok(b261) && replies[i + 3] == Ok(b262)
    requires replies[i + 4] == Ok(b263) && replies[i + 5] == Ok(b264)
    ensures var o := Drive(4, s, replies, i, ops);
      && o.status == Finished
      && o.ops == ops + [Write(32, 255), Read(261), Read(262), Read(263), Read(264)]
      && Report(o.session) == Identity(s.intMfg, s.modelID, EsuId(b261, b262, b263, b264))
  {
    DriveStep(4, s, replies, i, ops, s, Issue(Write(32, 255)));
    DriveStep(5, s, replies, i + 1, ops + [Write(32, 255)], s, Issue(Read(261)));
    EsuFrom6(s, replies, i + 2, ops + [Write(32, 255)] + [Read(261)], b261, b262, b263, b264);
    assert ops + [Write(32, 255)] + [Read(261)] + [Read(262), Read(263), Read(264)] ==
      ops + [Write(32, 255), Read(261), Read(262), Read(263), Read(264)];
  }

  /** ESU with version 255: write 0 to CV31 and 255 to CV32, then read
      CV261..CV264; productID accumulates the four bytes little-endian and
      is narrowed to int, so its bit pattern gives the CVs back. */
  lemma EsuRun(replies: seq<Reply>, w1: Int32, w2: Int32, b261: Byte, b262: Byte, b263: Byte, b264: Byte)
    requires 8 <= |replies| && replies[0] == Ok(151) && replies[1] == Ok(255)
    requires replies[2] == Ok(w1) && replies[3] == Ok(w2)
    requires replies[4] == Ok(b261) && replies[5] == Ok(b262) && replies[6] == Ok(b263) && replies[7] == Ok(b264)
    ensures var o := Run(replies);
      && o.status == Finished
      && o.ops == [Read(8), Read(7), Write(31, 0), Write(32, 255), Read(261), Read(262), Read(263), Read(264)]
      && Report(o.session) == Identity(151, 255, Wrap(LittleEndian([b261, b262, b263, b264])))
      && (b264 < 128 ==> o.session.productID == LittleEndian([b261, b262, b263, b264]))
      && ToBytes(Unsigned(o.session.productID), 4) == [b261, b262, b263, b264]
  {
    RunStart(replies);
    var s2 := Initial.(mfgID := Some(Esu), intMfg := 151);
    var s3 := s2.(modelID := 255);
    var ops := [Read(8), Read(7), Write(31, 0)];
    DriveStep(2, Initial, replies, 0, [Read(8)], s2, Issue(Read(7)));
    DriveStep(3, s2, replies, 1, [Read(8)] + [Read(7)], s3, Issue(Write(31, 0)));
    assert [Read(8)] + [Read(7)] + [Write(31, 0)] == ops;
    EsuFrom4(s3, replies, 2, ops, w1, w2, b261, b262, b263, b264);
    assert ops + [Write(32, 255), Read(261), Read(262), Read(263), Read(264)] ==
      [Read(8), Read(7), Write(31, 0), Write(32, 255), Read(261), Read(262), Read(263), Read(264)];
    EsuIdBytes(b261, b262, b263, b264);
    LittleEndianOf4(b261, b262, b263, b264);
  }

  // ---------------------------------------------------------------------
  // TCS

  /** TCS with CV249 below 129 (a mobile decoder): productID is CV249 and
      nothing more is read. */
  lemma TcsMobileRun(replies: seq<Reply>, cv7: Int32, cv249: Int32)
    requires cv249 < 129
    requires 3 <= |replies| && replies[0] == Ok(153) && replies[1] == Ok(cv7)
    requires replies[2] == Ok(cv249)
    ensures var o := Run(replies);
      && o.status == Finished
      && o.ops == [Read(8), Read(7), Read(249)]
      && Report(o.session) == Identity(153, cv7, cv249)
  {
    RunStart(replies);
    var s2 := Initial.(mfgID := Some(Tcs), intMfg := 153);
    var s3 := s2.(modelID := cv7);
    var ops := [Read(8)];
    DriveStep(2, Initial, replies, 0, ops, s2, Issue(Read(7)));
    ops := ops + [Read(7)];
    DriveStep(3, s2, replies, 1, ops, s3, Issue(Read(249)));
    ops := ops + [Read(249)];
    DriveStep(4, s3, replies, 2, ops, s3.(productID := cv249), Finish);
    assert ops == [Read(8), Read(7), Read(249)];
  }

  /** TCS from step 4 with CV249 of 129 or more: CV248, CV111 and CV110
      are read too, and productID is the TCS combination of the four bytes
      and the model. */
  lemma TcsFrom4(s: Session, replies: seq<Reply>, i: nat, ops: seq<CvOp>, cv249: Int32, cv248: Int32, cv111: Int32, cv110: Int32)
    requires s.mfgID == Some(Tcs) && !s.optionalCv && cv249 >= 129
    requires i + 4 <= |replies| && replies[i] == Ok(cv249) && replies[i + 1] == Ok(cv248)
    requires replies[i + 2] == Ok(cv111) && replies[i + 3] == Ok(cv110)
    ensures var o := Drive(4, s, replies, i, ops);
      && o.status == Finished
      && o.ops == ops + [Read(248), Read(111), Read(110)]
      && Report(o.session) == Identity(s.intMfg, s.modelID, TcsId(cv249, cv248, cv111, cv110, s.modelID))
  {
    var s4 := s.(productIDlowest := cv249);
    var s5 := s4.(productIDlow := cv248);
    var s6 := s5.(productIDhigh := cv111);
    DriveStep(4, s, replies, i, ops, s4, Issue(Read(248)));
    DriveStep(5, s4, replies, i + 1, ops + [Read(248)], s5, Issue(Read(111)));
    DriveStep(6, s5, replies, i + 2, ops + [Read(248)] + [Read(111)], s6, Issue(Read(110)));
    DriveStep(7, s6, replies, i + 3, ops + [Read(248)] + [Read(111)] + [Read(110)],
              s6.(productIDhighest := cv110, productID := TcsId(cv249, cv248, cv111, cv110, s.modelID)), Finish);
    assert ops + [Read(248)] + [Read(111)] + [Read(110)] == ops + [Read(248), Read(111), Read(110)];
  }

  /** TCS with CV249 of 129 or more: CV248, CV111 and CV110 are read too,
      and productID is the TCS combination of the four bytes and the
      model. */
  lemma TcsRun(replies: seq<Reply>, cv7: Int32, cv249: Byte, cv248: Byte, cv111: Byte, cv110: Byte)
    requires cv249 >= 129
    requires 6 <= |replies| && replies[0] == Ok(153) && replies[1] == Ok(cv7)
    requires replies[2] == Ok(cv249) && replies[3] == Ok(cv248) && replies[4] == Ok(cv111)
    requires replies[5] == Ok(cv110)
    ensures var o := Run(replies);
      && o.status == Finished
      && o.ops == [Read(8), Read(7), Read(249), Read(248), Read(111), Read(110)]
      && Report(o.session) == Identity(153, cv7, TcsId(cv249, cv248, cv111, cv110, cv7))
  {
    RunStart(replies);
    var s2 := Initial.(mfgID := Some(Tcs), intMfg := 153);
    var s3 := s2.(modelID := cv7);
    var ops := [Read(8), Read(7), Read(249)];
    DriveStep(2, Initial, replies, 0, [Read(8)], s2, Issue(Read(7)));
    DriveStep(3, s2, replies, 1, [Read(8)] + [Read(7)], s3, Issue(Read(249)));
    assert [Read(8)] + [Read(7)] + [Read(249)] == ops;
    TcsFrom4(s3, replies, 2, ops, cv249, cv248, cv111, cv110);
    assert ops + [Read(248), Read(111), Read(110)] == [Read(8), Read(7), Read(249), Read(248), Read(111), Read(110)];
  }
}
