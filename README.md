# Decoder identification (JMRI `IdentifyDecoder`), modelled in Dafny

JMRI identifies a DCC decoder on the programming track by reading its
configuration variables (CVs). `IdentifyDecoder` is the state machine that
does it:

- It reads CV8 (the manufacturer code) and CV7 (the version, used as the
  model).
- For eleven known manufacturers it then runs a manufacturer-specific
  sequence of CV reads and writes.
- It folds the bytes it reads into a third identifier, `productID`, a Java
  `int` where -1 means "none".
- When the driver reports "Done", it hands the triple (CV8, CV7,
  `productID`) to `done`.

The model has six files:

- `java_int.dfy` (module `JavaInt`): Java's 32-bit `int` as the subset type
  `Int32`. `+`, `*` and `<<` wrap around explicitly, and `|` and `&` are
  computed on the two's-complement bit pattern. The module also has
  little-endian bytes and the round trip between a number and its bytes.
- `manufacturer.dfy` (modules `Optional`, `Manufacturers`): the
  `Manufacturer` enum with its codes, the code table `Lookup`, and
  `forValue` as a linear search (`ForValue`) proved to agree with it.
- `product_id.dfy` (module `ProductId`): each manufacturer's combination
  formula, written with the Java operators as the source writes them. The
  lemmas say what each formula means when every operand is a CV byte: which
  little-endian or big-endian number it is, and, for the formulas that keep
  every byte, that the CV bytes can be read back from it.
- `identify.dfy` (module `Identify`): the session (the fields of the Java
  class plus the optional-CV flag).
  - The steps `test1`..`test9` are pure functions `Step1`..`Step9` from a
    session and the previous operation's value to a new session and an
    action. The action is one more CV read or write (Java returns `false`),
    or `Finish` (Java returns `true`).
  - The class `IdentifyDecoder` holds the same fields and updates them in
    place. Each of its methods `Test1`..`Test9` is proved to leave exactly
    the session its step function describes and to return the same action.
  - `StatusUpdate` models the "Done" hand-off.
- `identify_run.dfy` (module `IdentifyRun`) and `identify_properties.dfy`
  (module `IdentifyProperties`): whole runs.
  - The step driver belongs to `AbstractIdentify`, which is not part of this
    model. It is taken to behave as follows:
    - It issues each requested operation and calls the next step with the
      operation's value.
    - A successful operation clears the optional-CV flag.
    - A failed operation while the flag is set passes an undefined value on
      with the flag still set.
    - A failed operation while the flag is clear stops the run, which ends
      `Unhandled`: the state machine has no handling for it.
  - For every manufacturer, the run lemmas state:
    - the exact sequence of CV operations;
    - how the run ends;
    - the triple that would be reported.
  - General lemmas bound every run to eight operations and show that the
    manufacturer code and the model never change after step 3. They also
    show that a run ends `Unhandled` only when the reply to its last
    operation is a failure that was not marked optional, and never when
    every reply succeeds.

The source's doc comment says the HN7000 (Hornby, version 254) keeps its ID
in CV200 (MSB) and CV201 (LSB). The code reads CV200 twice, takes the first
value as the low byte and the second as the high byte. The model follows the
code. The HN7000 branch of step 4 also never checks the optional-CV flag. So
when the first CV200 read fails, the undefined value becomes the low byte.
The flag is then still set at the second read, so a failure there is passed
over too. `HornbyHn7000Run` states these outcomes.

## Model

| member | source | states |
|---|---|---|
| `Manufacturers.ForValue` | java/src/jmri/jmrit/decoderdefn/IdentifyDecoder.java:125-132 | the linear search over the constants returns the constant whose code is the value, and null (None) exactly when no constant has that code; its result is the code table `Lookup` |
| `Manufacturers.LookupExact` | java/src/jmri/jmrit/decoderdefn/IdentifyDecoder.java:106-117 | the lookup names the manufacturer `e` exactly when `e`'s code is the value, and gives null exactly when no manufacturer has that code |
| `Manufacturers.ValuesComplete` | java/src/jmri/jmrit/decoderdefn/IdentifyDecoder.java:106-117 | every constant is in `values()` and no two constants share a code |
| `Identify.Step` | java/src/jmri/jmrit/decoderdefn/IdentifyDecoder.java:144-454 | step 2 always asks for CV7 and leaves the optional flag alone; step 3 sets the model to its value; from step 3 on the manufacturer and its raw code never change, and from step 4 on neither does the model; a step from 3 on that issues an operation has a known manufacturer; step 9 always finishes |
| `Identify.Step9` | java/src/jmri/jmrit/decoderdefn/IdentifyDecoder.java:446-454 | step 9 always finishes and keeps manufacturer, code and model, with or without a known manufacturer |
| `Identify.IdentifyDecoder.constructor` | java/src/jmri/jmrit/decoderdefn/IdentifyDecoder.java:93-100 | a new session has a null manufacturer and -1 in every integer field |
| `Identify.IdentifyDecoder.Test1` | java/src/jmri/jmrit/decoderdefn/IdentifyDecoder.java:136-142 | `test1` asks for CV8 and changes nothing |
| `Identify.IdentifyDecoder.Test2` | java/src/jmri/jmrit/decoderdefn/IdentifyDecoder.java:144-151 | `test2` sets the manufacturer to `forValue(value)` and the raw code to the value, then asks for CV7 |
| `Identify.IdentifyDecoder.Test3` | java/src/jmri/jmrit/decoderdefn/IdentifyDecoder.java:153-218 | `test3` leaves exactly the session of `Step3` and returns its action (the first operation of each manufacturer, or finish) |
| `Identify.IdentifyDecoder.Test4` | java/src/jmri/jmrit/decoderdefn/IdentifyDecoder.java:220-300 | `test4` leaves exactly the session of `Step4` and returns its action |
| `Identify.IdentifyDecoder.Test5` | java/src/jmri/jmrit/decoderdefn/IdentifyDecoder.java:302-352 | `test5` leaves exactly the session of `Step5` and returns its action |
| `Identify.IdentifyDecoder.Test6` | java/src/jmri/jmrit/decoderdefn/IdentifyDecoder.java:354-390 | `test6` leaves exactly the session of `Step6` and returns its action |
| `Identify.IdentifyDecoder.Test7` | java/src/jmri/jmrit/decoderdefn/IdentifyDecoder.java:392-426 | `test7` leaves exactly the session of `Step7` and returns its action |
| `Identify.IdentifyDecoder.Test8` | java/src/jmri/jmrit/decoderdefn/IdentifyDecoder.java:428-444 | `test8` leaves exactly the session of `Step8` and returns its action |
| `Identify.IdentifyDecoder.Test9` | java/src/jmri/jmrit/decoderdefn/IdentifyDecoder.java:446-454 | `test9` leaves exactly the session of `Step9` (ESU adds its fourth byte at bit 24, any other manufacturer changes nothing) and always finishes |
| `Identify.IdentifyDecoder.StatusUpdate` | java/src/jmri/jmrit/decoderdefn/IdentifyDecoder.java:456-465 | only the message "Done" hands on a triple, and that triple is (raw CV8, model, productID) |
| `ProductId.HighLowIdBytes` | java/src/jmri/jmrit/decoderdefn/IdentifyDecoder.java:327 | on bytes, `(high << 8) \| low` is `high * 256 + low`, and division and remainder by 256 give both bytes back (Harman, and Hornby at lines 312 and 316) |
| `ProductId.QsiIdBytes` | java/src/jmri/jmrit/decoderdefn/IdentifyDecoder.java:433 | on bytes, `high * 256 + low` gives both bytes back |
| `ProductId.TrainOMaticIdBytes` | java/src/jmri/jmrit/decoderdefn/IdentifyDecoder.java:384 | on bytes, `CV508 + CV509 * 256 + CV510 * 256 * 256` is the little-endian number of (CV508, CV509, CV510), and its three bytes are those CVs |
| `ProductId.DiyIdBytes` | java/src/jmri/jmrit/decoderdefn/IdentifyDecoder.java:406 | on bytes, the shifted DIY value is the big-endian number CV47..CV50 narrowed to int (that number itself when CV47 is below 128), and its four-byte pattern gives the CVs back |
| `ProductId.SoundTraxxIdBytes` | java/src/jmri/jmrit/decoderdefn/IdentifyDecoder.java:375 | on bytes, `CV256 \| ((CV255 & 7) << 8) \| (CV253 << 11)` is `CV256 + 256 * (CV255 % 8) + 2048 * CV253`, with CV256 in bits 0-7, CV255's low three bits in bits 8-10 and CV253 from bit 11 |
| `ProductId.EsuIdBytes` | java/src/jmri/jmrit/decoderdefn/IdentifyDecoder.java:363-449 | on bytes, ESU's running sum is the little-endian number CV261..CV264 narrowed to int: that number itself when CV264 is below 128, negative otherwise; its four-byte pattern gives the CVs back |
| `ProductId.TcsIdBytes` | java/src/jmri/jmrit/decoderdefn/IdentifyDecoder.java:410-420 | on bytes, when CV249 is 129..135 with CV248 == 5, or the model is 5 or more, the TCS ID is the four-byte little-endian number of CV249, CV248, CV111, CV110 narrowed to int, except CV249 + 256 * CV248 for CV249 180 on model 5; otherwise it is CV249 + 256 * CV248 when CV249 is 129..135, 170..172 or 180 on model 4, and CV249 alone in every other case |
| `IdentifyRun.DriveAppends` | java/src/jmri/jmrit/decoderdefn/IdentifyDecoder.java:135-454 | driving the steps only appends operations, at most one per remaining step |
| `IdentifyRun.DriveWaits` | java/src/jmri/jmrit/decoderdefn/IdentifyDecoder.java:135-454 | a run still waiting has issued one operation per reply, and a reply for every remaining step always ends it |
| `IdentifyRun.RunTerminates` | java/src/jmri/jmrit/decoderdefn/IdentifyDecoder.java:135-454 | every run starts with the read of CV8, issues at most eight operations, and with eight replies always ends |
| `IdentifyRun.DriveKeepsIdentity` | java/src/jmri/jmrit/decoderdefn/IdentifyDecoder.java:144-156 | from step 3 on the manufacturer and raw code are never changed, step 3 sets the model from its reply, and from step 4 on the model never changes |
| `IdentifyRun.DriveUnhandled` | java/src/jmri/jmrit/decoderdefn/IdentifyDecoder.java:56-71 | from any step, a run ends unhandled only when the reply to its last issued operation failed while the optional flag was clear |
| `IdentifyRun.DriveAllOk` | java/src/jmri/jmrit/decoderdefn/IdentifyDecoder.java:56-71 | from any step, a run whose remaining replies all succeed never ends unhandled |
| `IdentifyRun.RunUnhandled` | java/src/jmri/jmrit/decoderdefn/IdentifyDecoder.java:56-71 | a whole run ends unhandled only when the reply to its last operation is a failure of an operation (read or write) not marked optional (the flag is clear in the final session), and a run whose replies all succeed is never unhandled |
| `IdentifyProperties.UnknownManufacturerEndsAtStep3` | java/src/jmri/jmrit/decoderdefn/IdentifyDecoder.java:144-156 | a CV8 value that is none of the eleven codes ends the run after the CV7 read, with a null manufacturer, productID -1 and the raw CV8 value reported |
| `IdentifyProperties.ModelGatedEndsAtStep3` | java/src/jmri/jmrit/decoderdefn/IdentifyDecoder.java:182-197 | ESU with a version other than 255 and SoundTraxx with a version outside 70..72 end after the CV7 read with productID -1 |
| `IdentifyProperties.DietzRun` | java/src/jmri/jmrit/decoderdefn/IdentifyDecoder.java:293-295 | Dietz reads CV128 after CV8 and CV7, and productID is CV128 |
| `IdentifyProperties.ZimoRun` | java/src/jmri/jmrit/decoderdefn/IdentifyDecoder.java:258-260 | Zimo reads CV250, and productID is CV250 |
| `IdentifyProperties.DoehlerRun` | java/src/jmri/jmrit/decoderdefn/IdentifyDecoder.java:282-287 | Doehler reads CV261 as optional; productID is its value when the read succeeds and stays -1 when it fails, and the run finishes either way |
| `IdentifyProperties.HornbyRun` | java/src/jmri/jmrit/decoderdefn/IdentifyDecoder.java:244-256 | Hornby other than the HN7000 reads CV159 as optional; a failed read finishes with productID -1, and a value other than 143 is the productID |
| `IdentifyProperties.HornbyExtendedRun` | java/src/jmri/jmrit/decoderdefn/IdentifyDecoder.java:248-252 | when CV159 is 143, CV158 is read and productID is `(CV158 << 8) \| 143` (CV158 * 256 + 143 on a byte); a failure of that read is unhandled with productID still -1 |
| `IdentifyProperties.HornbyHn7000Run` | java/src/jmri/jmrit/decoderdefn/IdentifyDecoder.java:239-243 | the HN7000 reads CV200 twice, low byte first; productID is `(second << 8) \| first`; only a failed second read after a successful first one is unhandled |
| `IdentifyProperties.HarmanRun` | java/src/jmri/jmrit/decoderdefn/IdentifyDecoder.java:325-328 | Harman reads CV112 then CV113, and productID is CV112 * 256 + CV113 |
| `IdentifyProperties.QsiFrom4` | java/src/jmri/jmrit/decoderdefn/IdentifyDecoder.java:220-454 | from step 4 QSI writes 4 to CV50, reads CV56, writes 5 to CV50, reads CV56, and productID is the QSI formula of the two CV56 values |
| `IdentifyProperties.QsiRun` | java/src/jmri/jmrit/decoderdefn/IdentifyDecoder.java:431-434 | QSI's whole run is CV8, CV7, write 254 to CV49, write 4 to CV50, CV56, write 5 to CV50, CV56, and productID is high * 256 + low |
| `IdentifyProperties.TrainOMaticFrom4` | java/src/jmri/jmrit/decoderdefn/IdentifyDecoder.java:220-454 | from step 4 Train-O-Matic reads CV509 and CV508 and productID is the Train-O-Matic formula of CV510, CV509 and CV508 |
| `IdentifyProperties.TrainOMaticRun` | java/src/jmri/jmrit/decoderdefn/IdentifyDecoder.java:383-385 | Train-O-Matic reads CV510, CV509, CV508; productID is CV508 + 256 * CV509 + 65536 * CV510 and its three bytes are those CVs |
| `IdentifyProperties.DiyFrom4` | java/src/jmri/jmrit/decoderdefn/IdentifyDecoder.java:220-454 | from step 4 DIY reads CV48, CV49, CV50 and productID is the DIY formula of CV47..CV50 |
| `IdentifyProperties.DiyRun` | java/src/jmri/jmrit/decoderdefn/IdentifyDecoder.java:404-407 | DIY reads CV47..CV50; productID is the big-endian number CV47..CV50 narrowed to int, and its bit pattern gives the CVs back |
| `IdentifyProperties.SoundTraxxFrom4` | java/src/jmri/jmrit/decoderdefn/IdentifyDecoder.java:220-454 | from step 4 SoundTraxx (version 70..72) reads CV256 and CV255 and productID is the SoundTraxx formula |
| `IdentifyProperties.SoundTraxxRun` | java/src/jmri/jmrit/decoderdefn/IdentifyDecoder.java:372-376 | SoundTraxx versions 70..72 read CV253, CV256, CV255, and productID is CV256 + 256 * (CV255 % 8) + 2048 * CV253 |
| `IdentifyProperties.EsuFrom6` | java/src/jmri/jmrit/decoderdefn/IdentifyDecoder.java:354-454 | from step 6 ESU starts productID at CV261, then adds CV262, CV263 and CV264 at their byte positions, reading each in turn |
| `IdentifyProperties.EsuFrom4` | java/src/jmri/jmrit/decoderdefn/IdentifyDecoder.java:220-454 | from step 4 ESU writes 255 to CV32, reads CV261..CV264 and leaves the ESU sum in productID |
| `IdentifyProperties.EsuRun` | java/src/jmri/jmrit/decoderdefn/IdentifyDecoder.java:192-197 | ESU version 255 writes 0 to CV31 and 255 to CV32, then reads CV261..CV264; productID is their little-endian number narrowed to int (that number itself when CV264 < 128), and its bit pattern gives the CVs back |
| `IdentifyProperties.TcsMobileRun` | java/src/jmri/jmrit/decoderdefn/IdentifyDecoder.java:228-231 | TCS with CV249 below 129 finishes after CV249 with productID CV249 |
| `IdentifyProperties.TcsFrom4` | java/src/jmri/jmrit/decoderdefn/IdentifyDecoder.java:220-454 | from step 4, TCS with CV249 of 129 or more reads CV248, CV111, CV110 and productID is the TCS formula of those bytes and the model |
| `IdentifyProperties.TcsRun` | java/src/jmri/jmrit/decoderdefn/IdentifyDecoder.java:408-421 | TCS with CV249 of 129 or more reads CV249, CV248, CV111, CV110 and reports the TCS combination selected by CV249, CV248 and the model |

## Left out

- The `Programmer` transport and the step driver (`readCV`, `writeCV`,
  retries, timeouts, the sequencing in `AbstractIdentify`) are not part of
  this model. A run is driven by a sequence of replies, each a value or a
  failure, under the driver behaviour described above.
- The value of a failed optional read is undefined in the source. It is an
  arbitrary `Int32` carried by the failed reply.
- A failed read that is not marked optional ends the run as `Unhandled`. The
  state machine has no handling for it, and what the driver does next is not
  visible.
- The replies to writes are arbitrary values, because no step looks at them.
- `statusUpdate` messages other than "Done", `message`, and logging
  (including the `log.error` in the unreachable `default` branches) are left
  out, because they are advisory text. `done` is modelled as the value
  `StatusUpdate` returns.
- Test4: requires a known manufacturer. Java throws a null-reference
  exception when it switches on a null manufacturer, and with a
  null manufacturer step 3 finishes, so step 4 is never reached.
- Test5: requires a known manufacturer, for the same reason as `Test4`.
- Test6: requires a known manufacturer, for the same reason as `Test4`.
- Test7: requires a known manufacturer, for the same reason as `Test4`.
- Test8: requires a known manufacturer, for the same reason as `Test4`.
- The run lemmas for manufacturers that combine several bytes take byte
  replies (0..255), which is what a decoder returns for a CV. The formula
  functions themselves accept any `int` and wrap as Java does.
- `productID` stays a signed Java `int`, as the source's own TODO says, so a
  four-byte ID with the top bit set comes out negative. `EsuIdBytes`,
  `DiyIdBytes` and `TcsIdBytes` state exactly which value results.
