# ESC/POS receipt-printer driver (kenpos, `utils/escpos.ts`)

A Dafny model of the point-of-sale app's direct-USB receipt-printer driver. It has two parts.

- **The receipt encoder.** `buildReceipt` renders a sale as one contiguous ESC/POS buffer, in this order:
  - `ESC @` (initialize);
  - the business header;
  - rule lines;
  - one line per item;
  - the total;
  - one line per payment;
  - an optional change line;
  - the footer;
  - `GS V 0` (full cut).
- **The connection state machine.** This is the module's `device` and `endpointNumber` variables, plus the four operations on them:
  - `requestAndConnectDevice` pairs a printer;
  - `reconnectDevice` reconnects silently;
  - `sendData` does a raw transfer;
  - `printDirect` sends the drawer kick `ESC p 0 25 250`, then the receipt.

Modules, one file each:

| file | module | models |
|---|---|---|
| wrappers.dfy | `Wrappers` | `Option`, `Result`, `Outcome` for `null`s and thrown errors |
| bytes.dfy | `Bytes` | bytes, concatenation of buffers, the `reduce` over lengths |
| utf8.dfy | `Utf8` | `TextEncoder.encode` (UTF-8) and a decoder that inverts it |
| format.dfy | `Format` | `${n}`, `padEnd`, `toFixed(2)` on amounts in whole cents |
| commands.dfy | `Commands` | the `COMMANDS` opcodes the driver uses |
| receipt.dfy | `Receipt` | `buildReceipt`, as loops over an array, against the function `ReceiptBytes` |
| receipt_layout.dfy | `ReceiptLayout` | what the receipt is made of, line by line and byte by byte |
| webusb.dfy | `WebUsb` | `navigator.usb` and `USBDevice`, with host calls that resolve or reject nondeterministically |
| driver.dfy | `Driver` | the module state as class `PrinterConnection` and the four operations |

`PrinterConnection` has an object invariant, `Valid()`. Either there is no device and no endpoint, or all of the following hold:
- the device is open;
- interface 0 is claimed;
- `endpointNumber` is the first `'out'` endpoint of `interfaces[0].alternates[0]` of the device's active configuration.

Every operation keeps this invariant. The host keeps ghost logs of the calls made to it, each with whether the call resolved:
- each `USBDevice` logs every `open`, `selectConfiguration` and `claimInterface`, and separately every `transferOut` with the result it returned;
- `navigator.usb` logs every `getDevices` and what every `requestDevice` gave.

The driver's contracts are stated over these logs. Both connection paths run the same handshake: `open()`, then `selectConfiguration(1)` when no configuration is active, then `claimInterface(0)`, stopping at the first call that rejects. The model writes this handshake once, as `Connect`, and describes its calls as `Script` and `Handshake`.

Facts about the code that the model keeps:
- **Rule lines.** The code emits four 32-dash rule lines.
- **Text encoding.** Text is encoded as UTF-8 by `TextEncoder`, so a character can take up to four bytes.
- **Item names.** Names are right-padded with spaces and never truncated.
- **Transfer status.** `sendData` does not check the transfer status. A `'stall'` kick therefore does not stop `printDirect` from sending the receipt; only a rejected call stops it.
- **Reconnect with no match.** `reconnectDevice` leaves the previous state untouched when no granted device matches.
- **Re-pairing.** The previous device is never released.

## Model

| member | source | states |
|---|---|---|
| `Bytes.FlattenConcat` | utils/escpos.ts:212-215 | concatenating two lists of buffers concatenates their bytes |
| `Bytes.FlattenSnoc` | utils/escpos.ts:221-224 | copying one more buffer at the running offset appends exactly its bytes |
| `Bytes.FlattenLength` | utils/escpos.ts:217 | the `reduce` over the lengths equals the length of the combined buffer |
| `Bytes.PartAt` | utils/escpos.ts:220-224 | part k fills exactly the bytes from the summed lengths before it to the summed lengths including it |
| `Bytes.FirstAndLast` | utils/escpos.ts:212-226 | the combined buffer begins with its first part and ends with its last |
| `Utf8.EncodeChar` | utils/escpos.ts:134 | each character encodes to 1 to 4 bytes, the lead byte announces the count, and only ASCII takes one byte |
| `Utf8.DecodeEncodeChar` | utils/escpos.ts:134 | decoding one encoded character gives the character back; the decoder refuses overlong forms and surrogates |
| `Utf8.EncodeConcat` | utils/escpos.ts:210 | encoding a concatenation of strings is the concatenation of their encodings |
| `Utf8.DecodeEncode` | utils/escpos.ts:210 | decoding an encoded string gives the string back: the encoder loses nothing |
| `Utf8.EncodeAscii` | utils/escpos.ts:210 | on ASCII text the encoding has one byte per character, equal to the character's code |
| `Format.NatToString` | utils/escpos.ts:191 | a non-negative quantity prints as a non-empty string of decimal digits without leading zeros |
| `Format.ParseNatToString` | utils/escpos.ts:191 | reading a printed non-negative quantity back gives the number |
| `Format.ParseIntToString` | utils/escpos.ts:191 | any integer quantity, negative ones with a minus sign, reads back as the same integer |
| `Format.PadEnd` | utils/escpos.ts:190 | `padEnd(20)` keeps the name whole, pads it with spaces to 20 characters, and returns a longer name unchanged |
| `Format.FixedCentsShape` | utils/escpos.ts:189 | `toFixed(2)` gives digits, a point and exactly two decimals, with a minus sign exactly when the amount is negative |
| `Format.FixedCentsRoundTrip` | utils/escpos.ts:195 | `toFixed(2)` of a whole-cents amount reads back as the same amount |
| `Receipt.Set` | utils/escpos.ts:222 | `combined.set(arr, offset)` writes `arr` at `offset` and keeps every other byte |
| `Receipt.PushLines` | utils/escpos.ts:175-207 | the pushes build exactly the `lines` array `ReceiptLines` describes, with one push per item and one per payment, in order |
| `Receipt.PushItems` | utils/escpos.ts:188-192 | the `forEach` over the items appends exactly one item line per item, in input order |
| `Receipt.PushPayments` | utils/escpos.ts:198-200 | the `forEach` over the payments appends exactly one `method: amount` line per payment, in input order |
| `Receipt.EncodeLines` | utils/escpos.ts:210 | the map encodes every text line and keeps opcode bytes verbatim, line for line |
| `Receipt.SumLengths` | utils/escpos.ts:217 | the computed total length is the length of the concatenation |
| `Receipt.Combine` | utils/escpos.ts:218-224 | the preallocated buffer ends up holding all parts laid end to end |
| `Receipt.BuildReceipt` | utils/escpos.ts:174-227 | the returned buffer is `ReceiptBytes`: the encoded lines, then the full-cut opcode |
| `ReceiptLayout.Layout` | utils/escpos.ts:175-207 | the lines are: a 10-line header, n item lines, a 3-line total block, m payment lines, the optional change line, and a 2-line footer |
| `ReceiptLayout.ItemLineShape` | utils/escpos.ts:188-192 | an item line is the whole name space-padded to 20 columns, a space, the quantity, " x ", the two-decimal line total and a newline |
| `ReceiptLayout.ItemsInOrder` | utils/escpos.ts:188-192 | line 10+k is the item line of `sale.items[k]`, so there is one line per item, in input order |
| `ReceiptLayout.PaymentsInOrder` | utils/escpos.ts:198-200 | line 13+n+k is `method: amount` for `sale.payments[k]`, in input order |
| `ReceiptLayout.ChangeLinePresence` | utils/escpos.ts:202-207 | the change line follows the payments if and only if `sale.change > 0`; otherwise the footer follows them directly |
| `ReceiptLayout.HeaderRules` | utils/escpos.ts:177-186 | among the header lines, exactly lines 5 and 9 are rules, plus a business name or location that is itself 32 dashes |
| `ReceiptLayout.TotalRules` | utils/escpos.ts:194-196 | the total is framed by a rule above and below |
| `ReceiptLayout.TailHasNoRule` | utils/escpos.ts:198-207 | no payment, change or footer line is a rule |
| `ReceiptLayout.ItemIsNotRule` | utils/escpos.ts:188-192 | no item line is a rule |
| `ReceiptLayout.RulePositions` | utils/escpos.ts:182-196 | a line is a rule if and only if it follows the PIN line, the Cashier line, the items or the total (the name/location exception above aside) |
| `ReceiptLayout.Framing` | utils/escpos.ts:177 | the buffer starts with `ESC @` = 1B 40 and ends with `GS V 0` = 1D 56 00, and its length is the sum of the parts' lengths |
| `ReceiptLayout.LinePlacement` | utils/escpos.ts:210-226 | line k's encoding occupies exactly the bytes between its offset and the next line's: the buffer is the in-order concatenation |
| `WebUsb.Find` | utils/escpos.ts:108 | `find` returns the first element that matches, or none when no element matches |
| `WebUsb.OutEndpoint` | utils/escpos.ts:80-85 | the endpoint exists exactly when interface 0's first alternate has an `'out'` endpoint, and then it is the first one; a missing alternate throws instead |
| `WebUsb.UsbDevice.constructor` | utils/escpos.ts:4-13 | a device starts closed, with nothing claimed and nothing transferred |
| `WebUsb.UsbDevice.Open` | utils/escpos.ts:9 | `open()` is logged with its outcome; it either resolves and the device is open, or rejects and the device stays as it was |
| `WebUsb.UsbDevice.SelectConfiguration` | utils/escpos.ts:10 | the call is logged with its value and outcome; on success the active configuration is an offered one with the requested value; on failure it is unchanged |
| `WebUsb.UsbDevice.ClaimInterface` | utils/escpos.ts:11 | the call is logged with its interface number and outcome; on success interface n of the active configuration is claimed; on failure nothing is claimed |
| `WebUsb.UsbDevice.TransferOut` | utils/escpos.ts:12 | every call is appended to the device's transfer log, whether it resolves or rejects, and the result it returns is appended to the device's result log |
| `WebUsb.Usb.GetDevices` | utils/escpos.ts:38 | the call is logged with its outcome; it resolves with the granted devices or rejects |
| `WebUsb.Usb.RequestDevice` | utils/escpos.ts:39 | the call is logged with what it gave: a plugged-in device that is now granted, no device, or a rejection |
| `Driver.PrinterConnection.constructor` | utils/escpos.ts:51-52 | the state starts with both `device` and `endpointNumber` null |
| `Driver.HandshakeCompletes` | utils/escpos.ts:69-77 | a handshake issued the whole script exactly when none of its calls rejected |
| `Driver.AttemptOutcome` | utils/escpos.ts:69-85 | a connection attempt connects if and only if every host call it issued resolved and the active configuration has an OUT endpoint |
| `Driver.Connect` | utils/escpos.ts:69-85 | runs `open`, `selectConfiguration(1)` only without an active configuration, and `claimInterface(0)`, stopping at the first rejection; it returns the first OUT endpoint when all resolved, else the rejection or the missing-endpoint error; an open, configured, claiming device stays so |
| `Driver.PrinterConnection.ConnectSelected` | utils/escpos.ts:69-91 | after a selection, both variables are written only when the handshake connects, and then hold that device and its first OUT endpoint; otherwise they are unchanged |
| `Driver.PrinterConnection.RequestAndConnectDevice` | utils/escpos.ts:59-97 | exactly one `requestDevice` is logged, and the grant list grows by at most the selected device; a rejection or no selection fails with that error and touches no device; for a selected device the result succeeds exactly when its handshake connects; on failure the state is unchanged; no other device is touched and no transfer is issued |
| `Driver.PrinterConnection.Adopt` | utils/escpos.ts:110-128 | the matched device is stored and handshaken; true leaves it stored with its first OUT endpoint, false leaves both variables null |
| `Driver.PrinterConnection.ReconnectDevice` | utils/escpos.ts:105-130 | exactly one `getDevices` is logged; a rejected listing gives false with both variables null; no match gives false and an untouched state; otherwise the first match is handshaken and true is returned exactly when it connects, with that device stored, else both variables are null; no other device is touched and no transfer is issued |
| `Driver.PrinterConnection.SendData` | utils/escpos.ts:160-165 | with no device or an endpoint number of 0 or null it refuses and transfers nothing; otherwise it issues exactly one transfer of the data and returns the host's transfer result unchanged |
| `Driver.PrinterConnection.PrintDirect` | utils/escpos.ts:236-245 | when not connected it fails and transfers nothing; otherwise the first transfer is exactly `ESC p 0 25 250`, and only if that call resolved is the second transfer the `buildReceipt` buffer |

## Left out

- Money is modelled in whole cents. Floating-point `price * quantity`, how `toFixed(2)` rounds amounts that are not whole cents, and its exponent form at 1e21 and above are not modelled. Quantities are whole numbers.
- `Format.PadEnd`: widths are counted in Unicode scalar values. JavaScript's `padEnd` counts UTF-16 code units, so the two differ for characters outside the Basic Multilingual Plane.
- `Utf8.Encode`: every Dafny `char` is a scalar value, so the replacement of lone surrogates by U+FFFD is not modelled.
- `new Date(sale.date).toLocaleString()` depends on the host's locale and time zone. It is the parameter `localeDate`.
- Logging with `console.log` and `console.error` is a side channel and is left out.
- The async interleavings are not modelled: each operation runs to completion. In the code, another call can run at any `await`. For example, during `reconnectDevice`, `device` already points at the new device while `endpointNumber` still holds the previous device's endpoint.
- Host-initiated events are not modelled: unplugging, closing a device, and USB `disconnect` events.
- The host's behaviour beyond what the driver relies on is simplified. Examples are `requestDevice` filters, re-opening an open device, and how many bytes a stalled transfer writes.
- The `CTL_LF`, `PAPER_PART_CUT` and `CD_KICK_5` constants are not modelled, because no code path uses them.
- The React components, the service worker, the theme hook and the static constants are not part of this model. They are UI, caching and configuration, not the driver.
