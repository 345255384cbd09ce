/** The receipt-ingest script: it walks an image folder, gets one extracted
    receipt record per image, normalises and validates the record, and passes
    only valid records, scaled, to the contract's storeReceipt. The image
    reading, the extraction request and the transaction are parameters here:
    each entry's extraction reply is given as an already-parsed JSON value. */
module ReceiptIngest {
  import opened Wrappers

  /** Quantities are stored on chain multiplied by this factor and truncated. */
  const QUANTITY_SCALE: real := 1000.0

  /** The accepted life-cycle phases (transport, construction) and energy types. */
  const PHASES: set<string> := {"A4", "A5"}
  const ENERGY_TYPES: set<string> := {"diesel", "petrol", "electric"}

  // ---------------------------------------------------------------------
  // Directory entries and the image-suffix filter

  /** One name returned by listing the folder, and whether it names a regular file. */
  datatype DirEntry = DirEntry(name: string, isFile: bool)

  predicate IsSeparator(c: char) {
    c == '/' || c == '\\'
  }

  /** Joining the folder and an entry name: a separator is inserted unless the
      folder is empty or already ends in one. */
  function Join(folder: string, sep: char, name: string): (path: string)
    requires IsSeparator(sep)
    ensures |name| <= |path| && path[|path| - |name|..] == name
    ensures |path| > |name| ==> IsSeparator(path[|path| - |name| - 1])
  {
    if folder == [] || IsSeparator(folder[|folder| - 1]) then folder + name
    else folder + [sep] + name
  }

  predicate EndsWith(s: string, suffix: string) {
    |suffix| <= |s| && s[|s| - |suffix|..] == suffix
  }

  /** The case-sensitive `endswith(('.png', '.jpg', '.jpeg'))` test. */
  predicate HasImageSuffix(path: string) {
    EndsWith(path, ".png") || EndsWith(path, ".jpg") || EndsWith(path, ".jpeg")
  }

  /** A suffix without separators is a suffix of the joined path exactly when
      it is a suffix of the entry name. */
  lemma EndsWithAfterSeparator(path: string, name: string, suffix: string)
    requires |name| <= |path| && path[|path| - |name|..] == name
    requires |path| > |name| ==> IsSeparator(path[|path| - |name| - 1])
    requires forall k :: 0 <= k < |suffix| ==> !IsSeparator(suffix[k])
    ensures EndsWith(path, suffix) <==> EndsWith(name, suffix)
  {
    if |suffix| <= |name| {
      assert path[|path| - |suffix|..] == name[|name| - |suffix|..];
    }
  }

  /** Which folder the entries are listed from does not change which of them are images. */
  lemma ImageSuffixIgnoresFolder(folder: string, sep: char, name: string)
    requires IsSeparator(sep)
    ensures HasImageSuffix(Join(folder, sep, name)) <==> HasImageSuffix(name)
  {
    var path := Join(folder, sep, name);
    EndsWithAfterSeparator(path, name, ".png");
    EndsWithAfterSeparator(path, name, ".jpg");
    EndsWithAfterSeparator(path, name, ".jpeg");
  }

  /** The test is case-sensitive: an upper-case extension is not an image. */
  lemma SuffixIsCaseSensitive()
    ensures HasImageSuffix("scan.jpeg") && HasImageSuffix("a.png")
    ensures !HasImageSuffix("scan.PNG") && !HasImageSuffix("scan.Jpg") && !HasImageSuffix("png")
  {
    assert "scan.jpeg"[4..] == ".jpeg";
    assert "a.png"[1..] == ".png";
    var upper := "scan.PNG";
    assert upper[4..][1] == 'P' && upper[3..][0] == 'n';
    var mixed := "scan.Jpg";
    assert mixed[4..][1] == 'J' && mixed[3..][0] == 'n';
  }

  // ---------------------------------------------------------------------
  // The extracted record and its normalisation

  /** A parsed JSON value of the extraction reply. Finite numbers are exact
      reals; `NonFinite` is one of NaN, Infinity and -Infinity, which Python's
      JSON parser accepts as numbers. */
  datatype Value =
    | Str(s: string)
    | Num(n: real)
    | NonFinite
    | Bool(b: bool)
    | Null
    | List(items: seq<Value>)
    | Obj(fields: map<string, Value>)

  /** `dict.get(key, default)`. */
  function Get(fields: map<string, Value>, key: string, default: Value): Value {
    if key in fields then fields[key] else default
  }

  function UpperChar(c: char): char {
    if 'a' <= c <= 'z' then (c as int - 32) as char else c
  }

  function LowerChar(c: char): char {
    if 'A' <= c <= 'Z' then (c as int + 32) as char else c
  }

  /** `str.upper()` on ASCII letters: no lower-case letter is left and every
      other character is kept. */
  function Upper(s: string): (r: string)
    ensures |r| == |s|
    ensures forall i :: 0 <= i < |s| ==> r[i] == UpperChar(s[i])
    ensures forall i :: 0 <= i < |s| ==> !('a' <= r[i] <= 'z')
  {
    if s == [] then [] else [UpperChar(s[0])] + Upper(s[1..])
  }

  /** `str.lower()` on ASCII letters: no upper-case letter is left and every
      other character is kept. */
  function Lower(s: string): (r: string)
    ensures |r| == |s|
    ensures forall i :: 0 <= i < |s| ==> r[i] == LowerChar(s[i])
    ensures forall i :: 0 <= i < |s| ==> !('A' <= r[i] <= 'Z')
  {
    if s == [] then [] else [LowerChar(s[0])] + Lower(s[1..])
  }

  /** Where the script stops with an exception it does not catch (only a
      JSON decoding error is caught): `.get` on a reply that is not an object,
      `.upper()`/`.lower()` on a phase or energy type that is not a string,
      `.get` on a location that is not an object, and `int(quantity * 1000)`
      on a quantity that is not a number. */
  datatype Crash =
    | ReplyNotAnObject
    | PhaseNotText
    | EnergyTypeNotText
    | LocationNotAnObject
    | QuantityNotNumeric

  /** The record after reading its fields with their defaults and normalising case. */
  datatype Fields = Fields(
    receiptNumber: Value,
    date: Value,
    time: Value,
    phase: string,
    energyType: string,
    quantity: Value,
    locationName: Value,
    locationAddress: Value)

  /** The raw phase, energy type and location of a reply object, with the
      defaults the script passes to `.get`. */
  function RawPhase(f: map<string, Value>): Value { Get(f, "phase", Str("")) }
  function RawEnergyType(f: map<string, Value>): Value { Get(f, "energy_type", Str("")) }
  function RawLocation(f: map<string, Value>): Value { Get(f, "location", Obj(map[])) }

  /** Reading the fields of the reply in order, with '' (and 0.0 for the
      quantity, an empty object for the location) for missing keys. The first
      field that cannot be read decides the crash: the reply itself, then the
      phase, the energy type and the location. */
  function Extract(reply: Value): (r: Result<Fields, Crash>)
    ensures r.Success? <==> reply.Obj? && RawPhase(reply.fields).Str? && RawEnergyType(reply.fields).Str?
                            && RawLocation(reply.fields).Obj?
    ensures !reply.Obj? ==> r == Failure(ReplyNotAnObject)
    ensures reply.Obj? && !RawPhase(reply.fields).Str? ==> r == Failure(PhaseNotText)
    ensures reply.Obj? && RawPhase(reply.fields).Str? && !RawEnergyType(reply.fields).Str? ==>
              r == Failure(EnergyTypeNotText)
    ensures reply.Obj? && RawPhase(reply.fields).Str? && RawEnergyType(reply.fields).Str? &&
            !RawLocation(reply.fields).Obj? ==>
              r == Failure(LocationNotAnObject)
    ensures r.Success? ==> r.value.receiptNumber == Get(reply.fields, "receipt_number", Str(""))
                           && r.value.date == Get(reply.fields, "date", Str(""))
                           && r.value.time == Get(reply.fields, "time", Str(""))
                           && r.value.quantity == Get(reply.fields, "quantity", Num(0.0))
    ensures r.Success? ==> r.value.phase == Upper(RawPhase(reply.fields).s)
                           && r.value.energyType == Lower(RawEnergyType(reply.fields).s)
    ensures r.Success? ==> r.value.locationName == Get(RawLocation(reply.fields).fields, "name", Str(""))
                           && r.value.locationAddress == Get(RawLocation(reply.fields).fields, "address", Str(""))
    ensures r.Success? && "phase" !in reply.fields ==> r.value.phase == ""
    ensures r.Success? && "energy_type" !in reply.fields ==> r.value.energyType == ""
    ensures r.Success? && "location" !in reply.fields ==>
              r.value.locationName == Str("") && r.value.locationAddress == Str("")
    ensures r.Success? ==> forall i :: 0 <= i < |r.value.phase| ==> !('a' <= r.value.phase[i] <= 'z')
    ensures r.Success? ==> forall i :: 0 <= i < |r.value.energyType| ==> !('A' <= r.value.energyType[i] <= 'Z')
  {
    match reply
    case Obj(f) =>
      var phase := RawPhase(f);
      var energyType := RawEnergyType(f);
      var location := RawLocation(f);
      if !phase.Str? then Failure(PhaseNotText)
      else if !energyType.Str? then Failure(EnergyTypeNotText)
      else if !location.Obj? then Failure(LocationNotAnObject)
      else
        Success(Fields(
          Get(f, "receipt_number", Str("")),
          Get(f, "date", Str("")),
          Get(f, "time", Str("")),
          Upper(phase.s),
          Lower(energyType.s),
          Get(f, "quantity", Num(0.0)),
          Get(location.fields, "name", Str("")),
          Get(location.fields, "address", Str(""))))
    case _ => Failure(ReplyNotAnObject)
  }

  /** Why a record is not stored; the phase is checked first. */
  datatype Rejection = InvalidPhase(phase: string) | InvalidEnergyType(energyType: string)

  /** The two membership checks, phase first. */
  function Validate(f: Fields): (r: Option<Rejection>)
    ensures r.None? <==> f.phase in PHASES && f.energyType in ENERGY_TYPES
    ensures f.phase !in PHASES ==> r == Some(InvalidPhase(f.phase))
    ensures f.phase in PHASES && f.energyType !in ENERGY_TYPES ==> r == Some(InvalidEnergyType(f.energyType))
  {
    if f.phase !in PHASES then Some(InvalidPhase(f.phase))
    else if f.energyType !in ENERGY_TYPES then Some(InvalidEnergyType(f.energyType))
    else None
  }

  /** Python's `int()` on a float: truncation toward zero. */
  function Truncate(x: real): (t: int)
    ensures x >= 0.0 ==> 0 <= t && t as real <= x < t as real + 1.0
    ensures x < 0.0 ==> t <= 0 && t as real - 1.0 < x <= t as real
  {
    if x >= 0.0 then x.Floor else -((-x).Floor)
  }

  /** `int(quantity * 1000)`: a finite number is scaled and truncated, a
      boolean counts as 0 or 1, anything else raises (a non-finite float
      stays non-finite when scaled, and `int` of it raises). */
  function ScaleQuantity(quantity: Value): (r: Result<int, Crash>)
    ensures quantity.Num? ==> r.Success? && r.value == Truncate(quantity.n * QUANTITY_SCALE)
    ensures quantity.Bool? ==> r.Success? && r.value == (if quantity.b then 1000 else 0)
    ensures !quantity.Num? && !quantity.Bool? ==> r == Failure(QuantityNotNumeric)
  {
    match quantity
    case Num(n) => Success(Truncate(n * QUANTITY_SCALE))
    case Bool(b) => Success(if b then 1000 else 0)
    case _ => Failure(QuantityNotNumeric)
  }

  /** The arguments of one storeReceipt call, in the order they are passed. */
  datatype StoreCall = StoreCall(
    receiptNumber: Value,
    date: Value,
    time: Value,
    phase: string,
    energyType: string,
    scaledQuantity: int,
    locationName: Value,
    locationAddress: Value)

  /** A call that passed both checks. */
  predicate ValidCall(c: StoreCall) {
    c.phase in PHASES && c.energyType in ENERGY_TYPES
  }

  /** Why an entry did not lead to a storeReceipt call without stopping the run. */
  datatype Skip =
    | NotAnImage
    | RequestFailed(status: int)
    | MalformedJson
    | Rejected(rejection: Rejection)

  /** What happens to one folder entry. */
  datatype Outcome = Stored(call: StoreCall) | Skipped(reason: Skip) | Crashed(crash: Crash)

  /** A parsed reply that reaches storeReceipt: its fields can be read, it
      passes both checks and its quantity can be scaled. */
  predicate Storable(reply: Value) {
    && Extract(reply).Success?
    && Validate(Extract(reply).value).None?
    && ScaleQuantity(Extract(reply).value.quantity).Success?
  }

  /** One parsed reply: read the fields, validate, then scale; the scaling runs
      only for a record that passed validation. */
  function ProcessReply(reply: Value): (r: Outcome)
    ensures r.Stored? ==> ValidCall(r.call)
    ensures r.Stored? ==> Extract(reply).Success? && Validate(Extract(reply).value).None?
    ensures Extract(reply).Failure? ==> r == Crashed(Extract(reply).error)
    ensures Extract(reply).Success? && Validate(Extract(reply).value).Some? ==>
              r == Skipped(Rejected(Validate(Extract(reply).value).value))
    ensures Extract(reply).Success? && Validate(Extract(reply).value).None? ==>
              var f := Extract(reply).value;
              (ScaleQuantity(f.quantity).Success? ==>
                 r == Stored(StoreCall(f.receiptNumber, f.date, f.time, f.phase, f.energyType,
                                       ScaleQuantity(f.quantity).value, f.locationName, f.locationAddress)))
              && (ScaleQuantity(f.quantity).Failure? ==> r == Crashed(QuantityNotNumeric))
    ensures r.Stored? <==> Storable(reply)
  {
    match Extract(reply)
    case Failure(crash) => Crashed(crash)
    case Success(f) =>
      match Validate(f)
      case Some(rejection) => Skipped(Rejected(rejection))
      case None =>
        match ScaleQuantity(f.quantity)
        case Failure(crash) => Crashed(crash)
        case Success(scaled) =>
          Stored(StoreCall(f.receiptNumber, f.date, f.time, f.phase, f.energyType,
                           scaled, f.locationName, f.locationAddress))
  }

  /** A stored call carries the record's fields in storeReceipt's argument
      order: receipt number, date, time, normalised phase, normalised energy
      type, the scaled quantity, location name and location address. */
  lemma StoredCallFields(fields: map<string, Value>, c: StoreCall)
    requires ProcessReply(Obj(fields)) == Stored(c)
    ensures c.receiptNumber == Get(fields, "receipt_number", Str(""))
    ensures c.date == Get(fields, "date", Str("")) && c.time == Get(fields, "time", Str(""))
    ensures Get(fields, "phase", Str("")).Str? && c.phase == Upper(Get(fields, "phase", Str("")).s)
    ensures Get(fields, "energy_type", Str("")).Str?
            && c.energyType == Lower(Get(fields, "energy_type", Str("")).s)
    ensures ScaleQuantity(Get(fields, "quantity", Num(0.0))) == Success(c.scaledQuantity)
    ensures Get(fields, "location", Obj(map[])).Obj?
    ensures c.locationName == Get(Get(fields, "location", Obj(map[])).fields, "name", Str(""))
    ensures c.locationAddress == Get(Get(fields, "location", Obj(map[])).fields, "address", Str(""))
  {
  }

  /** `str.upper()` of a two-character string, character by character. */
  lemma UpperOfPair(s: string)
    requires |s| == 2
    ensures Upper(s) == [UpperChar(s[0]), UpperChar(s[1])]
  {
    var r := Upper(s);
    assert r[0] == UpperChar(s[0]) && r[1] == UpperChar(s[1]);
  }

  /** A phase is accepted exactly when it is A4 or A5 in either letter case. */
  lemma PhaseAcceptedIff(s: string)
    ensures Upper(s) in PHASES <==> s in {"A4", "a4", "A5", "a5"}
  {
    if |s| == 2 {
      UpperOfPair(s);
      assert s == [s[0], s[1]];
    } else {
      assert |Upper(s)| != 2;
    }
  }

  /** A record without a phase is rejected for its phase; one with a valid
      phase but without an energy type is rejected for its energy type. */
  lemma MissingFieldsAreRejected(fields: map<string, Value>)
    requires Extract(Obj(fields)).Success?
    ensures "phase" !in fields ==> ProcessReply(Obj(fields)) == Skipped(Rejected(InvalidPhase("")))
    ensures "energy_type" !in fields && Extract(Obj(fields)).value.phase in PHASES ==>
              ProcessReply(Obj(fields)) == Skipped(Rejected(InvalidEnergyType("")))
  {
  }

  /** Lower-case phases are accepted as upper-case ones. */
  lemma LowerCasePhaseIsNormalised()
    ensures Upper("a4") == "A4"
  {
    var r := Upper("a4");
    assert r[0] == UpperChar('a') && r[1] == UpperChar('4');
  }

  /** Upper-case energy types are accepted as lower-case ones. */
  lemma UpperCaseEnergyTypeIsNormalised()
    ensures Lower("DIESEL") == "diesel"
  {
    var r := Lower("DIESEL");
    assert forall i :: 0 <= i < 6 ==> r[i] == LowerChar("DIESEL"[i]);
  }

  /** Conversely, a reply object whose phase is A4 or A5 in either case, whose
      energy type is one of the three in any case, whose location (when
      present) is an object and whose quantity is a number or a boolean is
      stored, with its quantity scaled. */
  lemma ValidRecordIsStored(fields: map<string, Value>)
    requires RawPhase(fields).Str? && RawPhase(fields).s in {"A4", "a4", "A5", "a5"}
    requires RawEnergyType(fields).Str? && Lower(RawEnergyType(fields).s) in ENERGY_TYPES
    requires RawLocation(fields).Obj?
    requires Get(fields, "quantity", Num(0.0)).Num? || Get(fields, "quantity", Num(0.0)).Bool?
    ensures Storable(Obj(fields))
    ensures ProcessReply(Obj(fields)).Stored?
    ensures ProcessReply(Obj(fields)).call.phase == Upper(RawPhase(fields).s)
    ensures Success(ProcessReply(Obj(fields)).call.scaledQuantity)
            == ScaleQuantity(Get(fields, "quantity", Num(0.0)))
  {
    PhaseAcceptedIff(RawPhase(fields).s);
  }

  /** A reply with a lower-case phase, an upper-case energy type and a
      fractional quantity, and no other field, is stored as phase A4, energy
      type diesel and quantity 1500, with '' for every missing text field. */
  lemma ExampleRecordIsStored()
    ensures ProcessReply(Obj(map["phase" := Str("a4"), "energy_type" := Str("DIESEL"), "quantity" := Num(1.5)]))
            == Stored(StoreCall(Str(""), Str(""), Str(""), "A4", "diesel", 1500, Str(""), Str("")))
  {
    var fields := map["phase" := Str("a4"), "energy_type" := Str("DIESEL"), "quantity" := Num(1.5)];
    LowerCasePhaseIsNormalised();
    UpperCaseEnergyTypeIsNormalised();
    assert RawPhase(fields) == Str("a4") && RawEnergyType(fields) == Str("DIESEL");
    assert RawLocation(fields) == Obj(map[]);
    var f := Fields(Str(""), Str(""), Str(""), "A4", "diesel", Num(1.5), Str(""), Str(""));
    assert Extract(Obj(fields)) == Success(f);
    assert Validate(f) == None;
    assert ScaleQuantity(Num(1.5)) == Success(1500);
  }

  // ---------------------------------------------------------------------
  // The folder loop

  /** The extraction service's answer for one image: an HTTP status and, when
      the reply content parsed as JSON, the parsed value. */
  datatype Reply = Reply(status: int, content: Option<Value>)

  /** One iteration of the loop over the folder listing. */
  function ProcessEntry(folder: string, sep: char, e: DirEntry, ask: string -> Reply): (r: Outcome)
    requires IsSeparator(sep)
    ensures !e.isFile || !HasImageSuffix(e.name) ==> r == Skipped(NotAnImage)
    ensures r.Stored? ==> e.isFile && HasImageSuffix(e.name) && ask(e.name).status == 200
    ensures r.Stored? ==> ValidCall(r.call)
    ensures e.isFile && HasImageSuffix(e.name) ==>
              r == (if ask(e.name).status != 200 then Skipped(RequestFailed(ask(e.name).status))
                    else if ask(e.name).content.None? then Skipped(MalformedJson)
                    else ProcessReply(ask(e.name).content.value))
  {
    ImageSuffixIgnoresFolder(folder, sep, e.name);
    if !e.isFile || !HasImageSuffix(Join(folder, sep, e.name)) then Skipped(NotAnImage)
    else
      var reply := ask(e.name);
      if reply.status != 200 then Skipped(RequestFailed(reply.status))
      else if reply.content.None? then Skipped(MalformedJson)
      else ProcessReply(reply.content.value)
  }

  /** Each entry's outcome, as if every entry were processed. */
  function Outcomes(folder: string, sep: char, entries: seq<DirEntry>, ask: string -> Reply): (os: seq<Outcome>)
    requires IsSeparator(sep)
    ensures |os| == |entries|
    ensures forall i :: 0 <= i < |entries| ==> os[i] == ProcessEntry(folder, sep, entries[i], ask)
  {
    seq(|entries|, i requires 0 <= i < |entries| => ProcessEntry(folder, sep, entries[i], ask))
  }

  /** The result of the run: the storeReceipt calls made, in order, and the
      index of the entry whose uncaught exception ended the run, if any. */
  datatype Run = Run(stored: seq<StoreCall>, crashedAt: Option<nat>)

  /** One iteration of the loop applied to the run so far: a stored outcome
      appends its call, a skipped one changes nothing, a crash ends the run. */
  function Step(before: Run, o: Outcome, index: nat): Run {
    if before.crashedAt.Some? then before
    else
      match o
      case Stored(call) => Run(before.stored + [call], None)
      case Skipped(_) => before
      case Crashed(_) => Run(before.stored, Some(index))
  }

  /** The run over a sequence of per-entry outcomes, one iteration at a time. */
  function Replay(os: seq<Outcome>): (r: Run)
    ensures r.crashedAt.Some? ==> r.crashedAt.value < |os|
    ensures |r.stored| <= |os|
  {
    if os == [] then Run([], None)
    else Step(Replay(os[..|os| - 1]), os[|os| - 1], |os| - 1)
  }

  /** Once an outcome has crashed the run, later outcomes change nothing. */
  lemma {:induction false} CrashIsFinal(os: seq<Outcome>, k: nat)
    requires k <= |os|
    requires Replay(os[..k]).crashedAt.Some?
    ensures Replay(os) == Replay(os[..k])
    decreases |os| - k
  {
    if k == |os| {
      assert os[..k] == os;
    } else {
      var prefix := os[..|os| - 1];
      assert prefix[..k] == os[..k];
      CrashIsFinal(prefix, k);
    }
  }

  /** The script's loop: skip what is not an image, what failed to be
      requested or parsed, and what is invalid; stop at an uncaught exception. */
  method Ingest(folder: string, sep: char, entries: seq<DirEntry>, ask: string -> Reply)
    returns (stored: seq<StoreCall>, crashedAt: Option<nat>)
    requires IsSeparator(sep)
    ensures Run(stored, crashedAt) == Replay(Outcomes(folder, sep, entries, ask))
    ensures forall k :: 0 <= k < |stored| ==> ValidCall(stored[k])
  {
    ghost var os := Outcomes(folder, sep, entries, ask);
    stored := [];
    crashedAt := None;
    var i := 0;
    while i < |entries|
      invariant 0 <= i <= |entries|
      invariant Replay(os[..i]) == Run(stored, None)
      invariant forall k :: 0 <= k < |stored| ==> ValidCall(stored[k])
    {
      assert os[..i + 1][..i] == os[..i];
      match ProcessEntry(folder, sep, entries[i], ask) {
        case Stored(call) =>
          stored := stored + [call];
        case Skipped(_) =>
        case Crashed(_) =>
          crashedAt := Some(i);
          CrashIsFinal(os, i + 1);
          return;
      }
      i := i + 1;
    }
    assert os[..i] == os;
  }

  // ---------------------------------------------------------------------
  // The run as a filter of the per-entry outcomes

  /** The position of the first crashing outcome. */
  function FirstCrash(os: seq<Outcome>): (r: Option<nat>)
    ensures r.None? <==> forall j :: 0 <= j < |os| ==> !os[j].Crashed?
    ensures r.Some? ==> r.value < |os| && os[r.value].Crashed?
                        && forall j :: 0 <= j < r.value ==> !os[j].Crashed?
  {
    if os == [] then None
    else if os[0].Crashed? then Some(0)
    else
      match FirstCrash(os[1..])
      case None => None
      case Some(k) => Some(k + 1)
  }

  /** The calls of the stored outcomes, in order. */
  function StoredCalls(os: seq<Outcome>): (r: seq<StoreCall>)
    ensures |r| <= |os|
    ensures forall k :: 0 <= k < |r| ==> Stored(r[k]) in os
  {
    if os == [] then []
    else if os[0].Stored? then [os[0].call] + StoredCalls(os[1..])
    else StoredCalls(os[1..])
  }

  lemma {:induction false} StoredCallsOfAppend(os: seq<Outcome>, o: Outcome)
    ensures StoredCalls(os + [o]) == StoredCalls(os) + (if o.Stored? then [o.call] else [])
  {
    if os != [] {
      assert (os + [o])[1..] == os[1..] + [o];
      StoredCallsOfAppend(os[1..], o);
    } else {
      assert StoredCalls([o][1..]) == [];
    }
  }

  /** Appending an outcome moves the first crash only when there was none. */
  lemma {:induction false} FirstCrashOfAppend(os: seq<Outcome>, o: Outcome)
    ensures FirstCrash(os + [o]) ==
              if FirstCrash(os).Some? then FirstCrash(os)
              else if o.Crashed? then Some(|os|) else None
  {
    var extended := os + [o];
    var r := FirstCrash(extended);
    var before := FirstCrash(os);
    if before.Some? {
      var k := before.value;
      assert extended[k] == os[k];
      assert r.Some? && r.value <= k;
    } else if o.Crashed? {
      assert extended[|os|] == o;
      assert r.Some?;
    } else {
      forall j | 0 <= j < |extended| ensures !extended[j].Crashed? {
        if j < |os| {
          assert extended[j] == os[j];
        }
      }
    }
  }

  /** Where the run stops: the crashing entry, or the end of the listing. */
  function StopIndex(run: Run, count: nat): nat {
    if run.crashedAt.Some? then run.crashedAt.value else count
  }

  /** The run stops at the first outcome that raises, and its calls are
      exactly those of the stored outcomes before it, in order. */
  lemma {:induction false} ReplayIsFilterUpToFirstCrash(os: seq<Outcome>)
    ensures Replay(os).crashedAt == FirstCrash(os)
    ensures StopIndex(Replay(os), |os|) <= |os|
    ensures Replay(os).stored == StoredCalls(os[..StopIndex(Replay(os), |os|)])
  {
    if os == [] {
      return;
    }
    var last := |os| - 1;
    var prefix := os[..last];
    var before := Replay(prefix);
    ReplayIsFilterUpToFirstCrash(prefix);
    assert os == prefix + [os[last]];
    FirstCrashOfAppend(prefix, os[last]);
    if before.crashedAt.Some? {
      var k := before.crashedAt.value;
      assert os[..k] == prefix[..k];
    } else {
      assert prefix[..|prefix|] == prefix;
      StoredCallsOfAppend(prefix, os[last]);
      assert os[..|os|] == os;
    }
  }

  lemma {:induction false} StoredCallsContain(os: seq<Outcome>, j: nat)
    requires j < |os| && os[j].Stored?
    ensures os[j].call in StoredCalls(os)
  {
    if j > 0 {
      StoredCallsContain(os[1..], j - 1);
    }
  }

  /** Only records that passed both checks are stored, and in a run without a
      crash every entry whose processing stores a call has its call in the run. */
  lemma RunStoresExactlyTheValidRecords(folder: string, sep: char, entries: seq<DirEntry>,
                                        ask: string -> Reply)
    requires IsSeparator(sep)
    ensures var run := Replay(Outcomes(folder, sep, entries, ask));
            forall k :: 0 <= k < |run.stored| ==> ValidCall(run.stored[k])
    ensures var run := Replay(Outcomes(folder, sep, entries, ask));
            run.crashedAt.None? ==>
              forall j :: 0 <= j < |entries| && ProcessEntry(folder, sep, entries[j], ask).Stored? ==>
                ProcessEntry(folder, sep, entries[j], ask).call in run.stored
    ensures var run := Replay(Outcomes(folder, sep, entries, ask));
            run.crashedAt.None? ==>
              forall j :: 0 <= j < |entries| && entries[j].isFile && HasImageSuffix(entries[j].name)
                          && ask(entries[j].name).status == 200 && ask(entries[j].name).content.Some?
                          && Storable(ask(entries[j].name).content.value) ==>
                ProcessReply(ask(entries[j].name).content.value).call in run.stored
  {
    var os := Outcomes(folder, sep, entries, ask);
    var run := Replay(os);
    ReplayIsFilterUpToFirstCrash(os);
    var end := StopIndex(run, |os|);
    forall k | 0 <= k < |run.stored| ensures ValidCall(run.stored[k]) {
      assert Stored(run.stored[k]) in os[..end];
    }
    if run.crashedAt.None? {
      assert os[..end] == os;
      forall j | 0 <= j < |entries| && os[j].Stored? ensures os[j].call in run.stored {
        StoredCallsContain(os, j);
      }
    }
  }
}
