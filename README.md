# Fuel-receipt carbon ledger: read-back and ingest model

This project is a Dafny model of the two pieces of logic in the fuel-receipt
carbon ledger. One is the web front-end's receipt list. The other is the
ingest script that writes receipts to the contract.

- **Receipt list** (`receipt_list.dfy`, module `ReceiptList`). `loadReceipts`
  asks the contract for `receiptCount()`. It issues one `getReceipt(i)` per
  index `0 … count-1` and joins all of them, all or nothing. Each positional
  8-field reply becomes a named `Receipt`, with the quantity divided by 1000
  to give litres. On any failure the previous receipts stay and the error is
  logged. Loading ends either way. Around it sit the unit toggle, the carbon
  total, the quantity and carbon formatting rules, and what the component
  renders.
- **Ingest script** (`receipt_ingest.dfy`, module `ReceiptIngest`). The
  script loops over a folder listing.
  - It keeps only regular files whose joined path ends in `.png`, `.jpg` or
    `.jpeg` (case-sensitive).
  - It reads each extracted JSON record with defaults for missing fields.
  - It upper-cases the phase and lower-cases the energy type.
  - It rejects a record whose phase is not A4/A5, then one whose energy type
    is not diesel/petrol/electric.
  - Only the remaining records reach `storeReceipt`, with the quantity given
    as `int(quantity * 1000)`.
  - The script catches only JSON decoding errors. The model therefore treats
    every other exception as the end of the run: a `.upper()` on a
    non-string phase, a `.get` on a non-object location, or a non-numeric
    quantity.
- **Round trip** (`quantity_round_trip.dfy`, module `QuantityRoundTrip`)
  links the two sides: what the script stores, the list divides by 1000.
  This rests on an assumption about the deployed contract, whose source is
  not available: that `getReceipt` returns, as its field 4, the scaled
  quantity that `storeReceipt` was given as its sixth argument.
- `wrappers.dfy` holds `Option` and `Result`.

Where the model departs from reality:

- The contract handle is a value: `receiptCount` and a total function
  `index -> Option<RawReceipt>`, where `None` is a failed call.
- Obtaining the handle is an input `Result<Contract, LoadError>`.
- The extraction service's reply for an image is an input
  `name -> Reply(status, parsed JSON)`.
- JS and Python numbers are idealised as exact `real`s and unbounded `nat`s.

Mismatches in the source, recorded as they stand and not resolved:

- The contract interface in `project/src/utils/contract.ts` (lines 67-108)
  declares `storeReceipt` with 7 inputs. `EUReka.py` (lines 130-138) passes 8
  arguments, with `phase` in the 4th position where the read side has
  `fuelType`.
- Field 4 is named `quantityGallons` in that interface (lines 142, 91).
  `ReceiptList.tsx:41` treats it as thousandths of a litre. The ingest
  script's comments call it scaled gallons or kWh.

## Model

| member | source | states |
|---|---|---|
| `ReceiptList.Decode` | project/src/components/ReceiptList.tsx:36-45 | fields 0-3 and 5-7 pass through positionally; `quantityLitres * 1000` equals the raw field 4 and is non-negative |
| `ReceiptList.DecodeIsInjective` | project/src/components/ReceiptList.tsx:36-45 | decoding loses no information: equal decoded receipts come from equal replies |
| `ReceiptList.IssueFetches` | project/src/components/ReceiptList.tsx:29-33 | the loop issues exactly `count` calls; call `k` is `getReceipt(k)`, so indices ascend with none skipped or repeated |
| `ReceiptList.JoinAll` | project/src/components/ReceiptList.tsx:35 | the join succeeds iff every call answered; on success the result has one answer per call, aligned by position; on failure it names a call that failed |
| `ReceiptList.LoadOutcome` | project/src/components/ReceiptList.tsx:25-53 | a load succeeds iff the handle, the count and every `getReceipt(i)` for `i < count` succeed; a successful list has length `count` and element `i` decodes `getReceipt(i)`; handle and count errors are passed on; a receipt error names an index below the count whose call failed |
| `ReceiptList.OneFailedFetchFailsTheLoad` | project/src/components/ReceiptList.tsx:35-45 | if any single index below the count fails, the whole load fails with a receipt error, so no partial list is produced |
| `ReceiptList.ReceiptListComponent.constructor` | project/src/components/ReceiptList.tsx:17-19 | initial state: no receipts, loading, unit 'litres' |
| `ReceiptList.ReceiptListComponent.LoadReceipts` | project/src/components/ReceiptList.tsx:25-53 | on success `receipts` becomes the decoded list; on any failure `receipts` is unchanged and the error is logged; `loading` is false afterwards on both paths; the unit is untouched |
| `ReceiptList.Toggled` | project/src/components/ReceiptList.tsx:55-57 | the result is 'gallons' exactly when the input is 'litres', and 'litres' otherwise |
| `ReceiptList.ToggleTwice` | project/src/components/ReceiptList.tsx:55-57 | toggling always yields one of the two units; on either unit it changes the value, and toggling twice restores it |
| `ReceiptList.ReceiptListComponent.ToggleUnit` | project/src/components/ReceiptList.tsx:55-57 | the unit becomes its toggle and the receipts and loading flag are unchanged |
| `ReceiptList.FormatQuantity` | project/src/components/ReceiptList.tsx:59-66 | label " litres" exactly when the unit is 'litres', else " gallons"; the litres amount is the stored value; the gallons amount times 3.78541 gives back the litres |
| `ReceiptList.FormatCarbonEmissions` | project/src/components/ReceiptList.tsx:72-76 | kilogram form exactly when emissions are at least 1000; kilograms times 1000 give back the grams (so at least 1); the gram form keeps the value, which is below 1000 |
| `ReceiptList.CarbonFormatExamples` | project/src/components/ReceiptList.tsx:72-76 | 999 is shown as grams; 1000 as 1.0 kg; 2500 as 2.5 kg |
| `ReceiptList.TotalOfConcat` | project/src/components/ReceiptList.tsx:68-71 | the reduce total of a concatenation is the sum of the totals of the parts |
| `ReceiptList.TotalOfSmallLists` | project/src/components/ReceiptList.tsx:68-71 | the total of the empty list is 0; of a single receipt, its emissions |
| `ReceiptList.TotalCountsEveryReceipt` | project/src/components/ReceiptList.tsx:68-71 | every receipt's emissions are at most the total |
| `ReceiptList.ReceiptListComponent.View` | project/src/components/ReceiptList.tsx:78-180 | spinner exactly while loading; the switch is checked for 'gallons'; the total panel appears exactly for a non-empty list and shows the formatted total; one card per receipt, with the formatted quantity and emissions |
| `ReceiptIngest.Join` | EUReka.py:37 | the joined path ends with the entry name, preceded by a separator whenever anything precedes it |
| `ReceiptIngest.ImageSuffixIgnoresFolder` | EUReka.py:37-38 | the suffix test on the joined path agrees with the test on the entry name, whatever the folder |
| `ReceiptIngest.SuffixIsCaseSensitive` | EUReka.py:38 | `.jpeg` and `.png` names pass; `.PNG`, `.Jpg` and a bare `png` do not |
| `ReceiptIngest.Upper` | EUReka.py:110 | same length; each character is upper-cased; no lower-case ASCII letter remains |
| `ReceiptIngest.Lower` | EUReka.py:111 | same length; each character is lower-cased; no upper-case ASCII letter remains |
| `ReceiptIngest.Extract` | EUReka.py:107-114 | reading succeeds exactly when the reply is an object whose phase and energy type (default '') are strings and whose location (default an empty object) is an object; otherwise the first unreadable one of reply, phase, energy type, location names the crash; on success the phase is the upper-cased raw phase, the energy type the lower-cased raw energy type, name and address come from the location (default '', also when the location is missing), and receipt number, date, time and quantity are read with defaults '' and 0.0 |
| `ReceiptIngest.Validate` | EUReka.py:117-122 | accepts exactly when the phase is A4/A5 and the energy type is diesel/petrol/electric; the phase check comes first |
| `ReceiptIngest.PhaseAcceptedIff` | EUReka.py:110-119 | a raw phase is accepted exactly when it is A4, a4, A5 or a5 |
| `ReceiptIngest.LowerCasePhaseIsNormalised` | EUReka.py:110 | 'a4' normalises to 'A4' |
| `ReceiptIngest.UpperCaseEnergyTypeIsNormalised` | EUReka.py:111 | 'DIESEL' normalises to 'diesel' |
| `ReceiptIngest.MissingFieldsAreRejected` | EUReka.py:107-122 | a record without a phase is rejected as an invalid phase ''; one with a valid phase but no energy type is rejected as an invalid energy type '' |
| `ReceiptIngest.Truncate` | EUReka.py:127 | truncation toward zero: the result lies within 1 of the input, on the zero side |
| `ReceiptIngest.ScaleQuantity` | EUReka.py:112-127 | a finite number becomes its truncated thousandfold; a boolean 1000 or 0; any other value, including NaN and the infinities, raises |
| `ReceiptIngest.ProcessReply` | EUReka.py:105-138 | a failed read raises with its crash; a rejected record is skipped with its reason; a record that passed both checks is stored with its fields and scaled quantity in argument order when the quantity scales, and raises when it does not; a reply is stored exactly when it is `Storable`, and every stored call is valid |
| `ReceiptIngest.StoredCallFields` | EUReka.py:127-138 | a stored call carries receipt number, date, time, normalised phase, normalised energy type, scaled quantity, location name and address, in that order |
| `ReceiptIngest.ValidRecordIsStored` | EUReka.py:107-138 | a reply whose phase is A4/A5 in either case, whose energy type lower-cases to one of the three, whose location is an object or missing and whose quantity is a number or boolean is stored, with the upper-cased phase and the scaled quantity |
| `ReceiptIngest.ExampleRecordIsStored` | EUReka.py:107-138 | the reply {phase: "a4", energy_type: "DIESEL", quantity: 1.5} is stored as phase A4, energy type diesel, quantity 1500, with '' for the missing text fields |
| `ReceiptIngest.ProcessEntry` | EUReka.py:36-122 | a non-file or non-image entry is skipped; for an image file, a status other than 200 is skipped with that status, an unparsed reply is skipped as malformed JSON, and a parsed reply is processed as above; a stored entry's call is valid |
| `ReceiptIngest.Replay` | EUReka.py:36-158 | a run's crash index lies within the listing and it makes at most one call per entry |
| `ReceiptIngest.CrashIsFinal` | EUReka.py:105-158 | once an entry raises an uncaught exception, the later entries change nothing |
| `ReceiptIngest.Ingest` | EUReka.py:36-158 | the loop produces exactly the run of the per-entry outcomes, and every call it makes is valid |
| `ReceiptIngest.ReplayIsFilterUpToFirstCrash` | EUReka.py:36-158 | the run stops at the first entry that raises; its calls are those of the stored outcomes before that entry, in listing order |
| `ReceiptIngest.RunStoresExactlyTheValidRecords` | EUReka.py:117-138 | every call made passes both checks; in a run without a crash, every entry that yields a call has that call made, in particular every image file answered with status 200 whose parsed reply is `Storable` |
| `QuantityRoundTrip.StoredQuantityReadsBack` | EUReka.py:127 | a non-negative quantity stored as `int(q*1000)` reads back as litres `L` with `L <= q < L + 0.001` |
| `QuantityRoundTrip.ReadBackRescalesExactly` | project/src/components/ReceiptList.tsx:41 | scaling a read-back quantity by 1000 and truncating gives exactly the stored number |

Helpers without contracts of their own are described through the members
above:

- `ReceiptList.DecodeAll` is the positional map of `ReceiptList.tsx:36-45`,
  pinned down by `LoadOutcome`.
- `ReceiptList.TotalCarbonEmissions` is the reduce of `ReceiptList.tsx:68-71`,
  pinned down by `TotalOfConcat`, `TotalOfSmallLists` and
  `TotalCountsEveryReceipt`.
- `ReceiptList.CardOf` and `ReceiptList.Cards` are the card list of
  `ReceiptList.tsx:133-179`, pinned down by `View`.
- `ReceiptIngest.HasImageSuffix` is the suffix test of `EUReka.py:38`, pinned
  down by `ImageSuffixIgnoresFolder` and `SuffixIsCaseSensitive`.
- `ReceiptIngest.Get` is `dict.get` (`EUReka.py:107-114`), and `RawPhase`,
  `RawEnergyType`, `RawLocation` are its three reads that can raise, pinned
  down by `Extract`.
- `ReceiptIngest.Storable` names the replies that reach `storeReceipt`,
  pinned down by `ProcessReply` and `ValidRecordIsStored`.
- `ReceiptIngest.Step` is one iteration of the loop of `EUReka.py:36-158`,
  pinned down by `Replay`, `CrashIsFinal` and `Ingest`.

## Left out

- Obtaining the contract handle (`getContract` in `project/src/utils/contract.ts`) is a wallet and ethers-library call. It is an input `Result<Contract, LoadError>`, whose errors are the missing provider and the refused account request.
- `project/src/App.tsx` is not part of this model: wallet connection state, the account-change listener and the page layout.
- The concurrency of `Promise.all` is not modelled. The join is a sequential, order-preserving map that fails if any call fails.
- `JoinAll`: on failure it names the lowest failing index. `Promise.all` rejects with whichever call rejects first in time. The model only promises that the named call failed.
- `FormatQuantity`: gives the exact quotient and the unit label, not the `toFixed(3)` string. Floating-point rounding is not modelled.
- `FormatCarbonEmissions`: gives the exact kilogram value or the gram value, not the `toFixed(2)` or locale-dependent `toLocaleString()` string.
- `Decode`, `TotalCarbonEmissions`: `Number(...)` on a uint256 loses precision above 2^53, and JS floats round sums. The model uses unbounded naturals and exact reals.
- The React lifecycle (`useEffect`), the spinner styling and all markup are not modelled. `View` keeps only which parts are shown and with which values.
- Logging (`console.error`, `print`) is not modelled. `LoadReceipts` returns the logged error instead.
- The ingest script's I/O is not modelled: reading and base64-encoding images, loading the ABI file, the extraction HTTP request and its rate-limit sleep, and JSON parsing. Each image's reply is an input: a status and, when the content parsed, a JSON value. A missing `choices`/`message`/`content` path in the HTTP body is not modelled.
- The web3 connection check, transaction building, signing, sending and waiting are not modelled. The model records the arguments of each `storeReceipt` call. It does not model the ABI-encoding errors web3 would raise for a non-string field or a negative quantity.
- `Join`: an absolute entry name, which would make Python discard the folder, is not modelled. `os.listdir` never returns one. `IsSeparator` also accepts '\\' whatever separator is passed, which matches Windows path joining but not POSIX, where '\\' is an ordinary character; a folder ending in '\\' then gets no further separator. This changes only the joined path, never the suffix test on it (`ImageSuffixIgnoresFolder`).
- `Upper`, `Lower`: only ASCII letters change case. Python's full Unicode case mapping (for example 'ß' to 'SS') is not modelled.
- `ScaleQuantity`: a string quantity is modelled as raising. In Python `s * 1000` repeats the string, and `int()` of that succeeds when `s` is a digit string. JSON integers and floats are both exact reals, so float rounding of `quantity * 1000` is not modelled, nor the overflow of a finite quantity so large that `quantity * 1000` becomes infinite and `int()` raises.
- `GALLON_TO_LITER` in `EUReka.py:15` is defined but never used, so it has no counterpart.
