# SNES cartridge header decoder

This project models the cartridge header decoder of the `trv::snes` emulator
(`include/cartridge.h`) and proves properties of it in Dafny.

- `Header::build(cartridge, offset)` moves a cursor forward through
  fixed-width fields at a candidate offset. It reads a 21-byte title and then
  the map-mode byte. It rejects the offset unless the top three bits of that
  byte are `001`. Otherwise it stores the FastROM bit (bit 4) and the mapping
  mode (the low four bits). Then it reads the cartridge type, the log2 ROM and
  RAM sizes, the country, the licensee and the version. The sizes are
  computed as `0x400 << log`.
- The `Header(cartridge)` constructor runs `build` at `0x7FC0` (LoROM). Only
  when that fails does it run `build` at `0xFFC0` (HiROM). It throws when both
  fail.
- `Cartridge` refuses an image larger than `MAX_CART_SIZE` (`0x6000000`
  bytes, 96 MiB) before it decodes the header.

Layout of the project:

- `wrappers.dfy` (module `Wrappers`): the `Result` type that stands for a thrown
  `std::runtime_error`.
- `cpp_int.dfy` (module `CppInt`): the C++ integer semantics the size fields
  depend on. A shift on a 32-bit `int` follows C++20. It is undefined when the
  count is 32 or more. Otherwise it is `e1 * 2^e2` reduced modulo 2^32 into
  `[-2^31, 2^31)`. The model also covers the conversion of that `int` to a
  64-bit `std::size_t`.
- `snes.dfy` (module `Snes`):
  - the specification functions: `FieldsAt` and `Layout` (where each field
    sits), `Interpret`, `BuildSpec` and `Probe`;
  - the class `Header`, with the cursor-walking `Build` and the two-offset
    `FromCartridge`;
  - the class `Cartridge`, with its size check.

`Header.Build` is proved against `BuildSpec`, and `Header.FromCartridge`
against `Probe`. The lemmas state the properties of those functions:

- the field positions;
- the accept/reject rule;
- what a rejected build leaves changed;
- probe order, and that `0xFFC0` is not read once `0x7FC0` is accepted;
- the size arithmetic, including its overflow.

The map-mode check is the only acceptance test in this code. There is no
checksum or inverse-checksum comparison. There is no copier-header (`0x200`)
detection, no minimum image size, no bounds check and no interrupt-vector
table. Nor is there a gap byte between licensee and version: country,
licensee and version are read from consecutive bytes. Many SNES header
parsers check these; this decoder does not. The model follows the code and
adds none of them.

## Model

| member | source | states |
|---|---|---|
| `CppInt.WrapInt` | include/cartridge.h:72-73 | the `int` result of the shift is the unique value in [-2^31, 2^31) congruent to the exact product modulo 2^32 (C++20 shift semantics) |
| `CppInt.ToSizeT` | include/cartridge.h:122-123 | storing an `int` in a 64-bit `std::size_t` gives the unique value in [0, 2^64) congruent to it modulo 2^64 |
| `Snes.MapModeAccepted` | include/cartridge.h:60 | `mapMode >> 5 == 1` holds exactly when the byte lies in [0x20, 0x40), i.e. its top three bits are 001 |
| `Snes.SizeFromLog` | include/cartridge.h:69-73 | `0x400 << log` has undefined behaviour exactly when the shift count is 32 or more |
| `Snes.SizeFromLogExact` | include/cartridge.h:72-73 | for log <= 20 the stored size is exactly 0x400 * 2^log |
| `Snes.SizeFromLogSignExtends` | include/cartridge.h:72-73 | for log 21 the shift yields INT_MIN, which becomes 2^64 - 2^31 as a `size_t` |
| `Snes.SizeFromLogVanishes` | include/cartridge.h:72-73 | for log 22 to 31 the stored size is 0 |
| `CppInt.ShiftLeftInt` | include/cartridge.h:72-73 | `e1 << e2` on `int` is undefined exactly when the count is 32 or more; otherwise it is the value in [-2^31, 2^31) congruent to e1 * 2^e2 modulo 2^32 |
| `Snes.FieldsAt` | include/cartridge.h:56-77 | the fields read at an offset (title at [offset, offset+21), then one byte each at +21 to +27), laid out again in read order with their widths, are exactly the 28 bytes from the offset on |
| `Snes.FieldsAtLayout` | include/cartridge.h:95-115 | a header laid out at an offset is read back field for field: title at [offset, offset+21), map mode at +21, type at +22, ROM log at +23, RAM log at +24, country at +25, licensee at +26, version at +27 |
| `Snes.Interpret` | include/cartridge.h:65-73 | the mapping mode is below 16, and an accepted map-mode byte equals 0x20 OR the FastROM bit 0x10 OR the mapping mode, so no bit of it is lost |
| `Snes.BuildSpec` | include/cartridge.h:54-79 | the title is always overwritten from [offset, offset+21); the result is true iff the byte at offset+21 has `>> 5 == 1`; on false no other field changes |
| `Snes.BuildSpecAccepted` | include/cartridge.h:64-78 | on success every field comes from its fixed position: FastROM is bit 4 and the mapping mode the low four bits of offset+21, the type is the raw byte at +22, the sizes come from +23 and +24, and country, licensee and version come from +25, +26 and +27 |
| `Snes.Probe` | include/cartridge.h:41-52 | no header is found iff both map-mode bytes fail the shape check; a found header is LoROM iff the byte at 0x7FC0+21 passes |
| `Snes.ProbeDetectedAt` | include/cartridge.h:43-50 | a found header is the one decoded at the offset of its mapping (0x7FC0 or 0xFFC0), and that offset was accepted |
| `Snes.ProbeIgnoresHiROMWhenLoROMAccepted` | include/cartridge.h:43-46 | once 0x7FC0 is accepted, two images that agree on its 28 bytes give the same header: nothing at 0xFFC0 is read |
| `Snes.ProbeDetectsLoROMLayout` | include/cartridge.h:43-44 | any header laid out at 0x7FC0 with an accepted map-mode byte is detected as LoROM with exactly its fields, whatever follows |
| `Snes.ProbeDetectsHiROMLayout` | include/cartridge.h:45-46 | a header laid out at 0xFFC0 is detected as HiROM with exactly its fields when the map-mode byte at 0x7FC0 is rejected |
| `Snes.UnnamedCartridgeTypeDetected` | include/cartridge.h:16-24 | the cartridge type is stored unvalidated: some image is detected with a type byte that names none of the six enumerated types |
| `Snes.ExceedsMaxCartSize` | include/cartridge.h:150-153 | an image is refused exactly when it is larger than 96 MiB (0x6000000 bytes) |
| `Snes.Header.constructor` | include/cartridge.h:40 | the default header has a fresh 21-byte title buffer; its other fields are left indeterminate |
| `Snes.Header.CopyIntoArray` | include/cartridge.h:108-115 | the array receives the bytes [cursor, cursor+n) and the cursor advances by n |
| `Snes.Header.CopyIntoByte` | include/cartridge.h:94-106 | a one-byte field receives the byte at the cursor and the cursor advances by one |
| `Snes.Header.Build` | include/cartridge.h:54-79 | walking the cursor through the fields, the return value and the new header state are exactly `BuildSpec` of the old state; the title buffer object is kept |
| `Snes.Header.FromCartridge` | include/cartridge.h:41-52 | two builds in sequence on one header give the `Probe` result; failure of both raises `UnableToDetermineFormat` |
| `Snes.Cartridge.Load` | include/cartridge.h:150-161 | an image over MAX_CART_SIZE fails with `FileTooLarge` without decoding; otherwise it succeeds iff `Probe` finds a header, keeps the bytes, and holds the probed header |

## Left out

- Opening the file, the open-failure exception, and measuring the length with
  `ignore`/`gcount` are left out. So are seeking and copying the stream into
  `data` (include/cartridge.h:137-159). These are I/O. `Cartridge.Load` takes
  the loaded bytes as its input.
- `operator<<` and the `std::cout` traces are left out. They only produce
  output.
- `main` in src/emulator.cpp is left out. It is a command-line wrapper that
  returns -1 when no argument is given and otherwise constructs a `Cartridge`.
- The `Pointer` and `NotPointer` concepts are left out. They have no behaviour.
- The `memcpy` type punning is not modelled as such. Every field copied here
  is one byte or a byte array, so each copy is a read of bytes at the cursor.
- `int` is taken to be 32 bits wide and `std::size_t` 64 bits wide, as on the
  usual 64-bit targets.
- The header is read with no bounds check, so an out-of-range read is
  undefined behaviour and not an error. `Header.Build`,
  `Header.FromCartridge` and `Cartridge.Load` therefore require the bytes
  they read to exist:
  - on a rejected offset, 22 bytes from the offset;
  - on an accepted offset, 28 bytes from the offset.

  The model does not say what happens to shorter images.
- Cartridge.Load: requires the header bytes to exist for every image within
  the size limit, because the source reads them unchecked. The source
  compares a signed `std::streamsize` with the unsigned `MAX_CART_SIZE`. The
  length is never negative here, so the model compares natural numbers.
- A `size` of `UndefinedBehaviour` (shift count 32 or more) records that the
  C++ program's behaviour is undefined. It does not stand for any particular
  value in the `std::size_t` field.
