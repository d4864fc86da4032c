/**
 * The SNES cartridge header decoder of include/cartridge.h (namespace
 * trv::snes).
 *
 * `Header::build` walks a cursor forward over fixed-width fields at a
 * candidate offset of the image. It rejects the offset unless the map-mode
 * byte that follows the 21-byte title has 001 as its top three bits. The
 * probing constructor tries the LoROM offset 0x7FC0 first and the HiROM
 * offset 0xFFC0 second, and throws when neither is accepted. `Cartridge`
 * refuses images larger than MAX_CART_SIZE before decoding the header.
 */
module Snes {
  import opened Wrappers
  import opened CppInt

  /** Bytes in the `title` field (`std::array<unsigned char, 21>`). */
  const TitleLength: nat := 21
  /** Position of the map-mode byte, relative to the probed offset. */
  const MapModeIndex: nat := 21
  /** Bytes `build` reads when it accepts an offset: the title and seven
      one-byte fields. */
  const HeaderLength: nat := 28
  /** The offset probed first; a header found there is a LoROM header. */
  const LoROMOffset: nat := 0x7FC0
  /** The offset probed second; a header found there is a HiROM header. */
  const HiROMOffset: nat := 0xFFC0
  /** `Cartridge::MAX_CART_SIZE`. */
  const MaxCartSize: nat := 0x600_0000

  /** The cartridge types the source names in `enum class CartridgeType`. */
  datatype CartridgeType =
    | Rom | RomRam | RomRamBattery | RomSa1 | RomSa1Ram | RomSa1RamBattery
  {
    /** The byte that stands for this type. */
    function Code(): bv8
    {
      match this
      case Rom => 0x00
      case RomRam => 0x01
      case RomRamBattery => 0x02
      case RomSa1 => 0x33
      case RomSa1Ram => 0x34
      case RomSa1RamBattery => 0x35
    }
  }

  /** Whether a byte is the code of one of the named cartridge types. */
  predicate IsNamedCartridgeType(b: bv8)
  {
    exists t: CartridgeType :: t.Code() == b
  }

  /** Errors the source raises as `std::runtime_error`. */
  datatype CartridgeError =
    | FileTooLarge             // "File size larger than expected."
    | UnableToDetermineFormat  // "Unable to determine ROM format ..."

  // ---------------------------------------------------------------------
  // The map-mode byte and the size fields
  // ---------------------------------------------------------------------

  /** `mapMode >> 5 == 1`: the map-mode byte passes the shape check exactly
      when its top three bits are 001, that is when it lies in [0x20, 0x40). */
  function MapModeAccepted(mode: bv8): (accepted: bool)
    ensures accepted <==> 0x20 <= mode < 0x40
  {
    mode >> 5 == 1
  }

  /** `0x400 << log` evaluated on `int` and stored in a `std::size_t`. */
  function SizeFromLog(log: bv8): (size: CppValue)
    ensures size.UndefinedBehaviour? <==> log >= 32
  {
    match ShiftLeftInt(0x400, log as nat)
    case Defined(v) => Defined(ToSizeT(v))
    case UndefinedBehaviour => UndefinedBehaviour
  }

  /** Up to log 20 the size is exactly 1 KiB times 2^log. */
  lemma SizeFromLogExact(log: bv8)
    requires log <= 20
    ensures SizeFromLog(log) == Defined(0x400 * Pow2(log as nat))
  {
    Pow2Constants();
    Pow2Add(10, log as nat);
    Pow2Monotone(10 + log as nat, 30);
    var x := 0x400 * Pow2(log as nat);
    assert 0 <= x < IntModulus / 2;
    assert WrapInt(x) == x;
    assert ToSizeT(x) == x;
  }

  /** At log 21 the shift reaches the sign bit of `int`: the result is
      INT_MIN, which the conversion to `std::size_t` sign-extends. */
  lemma SizeFromLogSignExtends()
    ensures SizeFromLog(21) == Defined(SizeTModulus - 0x8000_0000)
  {
    Pow2Constants();
    Pow2Add(10, 21);
    assert 0x400 * Pow2(21) == 0x8000_0000;
    assert WrapInt(0x8000_0000) == -0x8000_0000;
  }

  /** From log 22 to 31 every set bit is shifted out of the `int`. */
  lemma SizeFromLogVanishes(log: bv8)
    requires 22 <= log < 32
    ensures SizeFromLog(log) == Defined(0)
  {
    Pow2Constants();
    Pow2Add(10, log as nat);
    Pow2Add(32, log as nat - 22);
    var x := 0x400 * Pow2(log as nat);
    assert x == IntModulus * Pow2(log as nat - 22);
    assert x % IntModulus == 0;
    assert WrapInt(x) == 0;
  }

  // ---------------------------------------------------------------------
  // Header layout: where each field sits
  // ---------------------------------------------------------------------

  /** The raw header fields, in the order `build` reads them. */
  datatype HeaderFields = HeaderFields(
    title: seq<bv8>,
    mapMode: bv8,
    cartridgeType: bv8,
    logKBROMSize: bv8,
    logKBRAMSize: bv8,
    country: bv8,
    licensee: bv8,
    version: bv8)

  /** The fields of a header at `offset`, each read from its fixed position.
      Laid out again, in read order and with their widths, they are exactly
      the 28 bytes from the offset on. */
  function FieldsAt(data: seq<bv8>, offset: nat): (f: HeaderFields)
    requires offset + HeaderLength <= |data|
    ensures |f.title| == TitleLength
    ensures Layout(f) == data[offset..offset + HeaderLength]
  {
    HeaderFields(
      data[offset..offset + TitleLength],
      data[offset + 21],
      data[offset + 22],
      data[offset + 23],
      data[offset + 24],
      data[offset + 25],
      data[offset + 26],
      data[offset + 27])
  }

  /** The bytes of a header: each field, in declaration order, taking
      exactly its own width. */
  function Layout(f: HeaderFields): (bytes: seq<bv8>)
    requires |f.title| == TitleLength
    ensures |bytes| == HeaderLength
  {
    f.title + [f.mapMode, f.cartridgeType, f.logKBROMSize, f.logKBRAMSize,
               f.country, f.licensee, f.version]
  }

  /** A header laid out at an offset is read back field for field. */
  lemma FieldsAtLayout(data: seq<bv8>, offset: nat, f: HeaderFields)
    requires |f.title| == TitleLength
    requires offset + HeaderLength <= |data|
    requires data[offset..offset + HeaderLength] == Layout(f)
    ensures FieldsAt(data, offset) == f
  {
    var window := data[offset..offset + HeaderLength];
    assert data[offset..offset + TitleLength] == window[..TitleLength];
    assert Layout(f)[..TitleLength] == f.title;
    assert data[offset + 21] == Layout(f)[21] == f.mapMode;
    assert data[offset + 22] == Layout(f)[22] == f.cartridgeType;
    assert data[offset + 23] == Layout(f)[23] == f.logKBROMSize;
    assert data[offset + 24] == Layout(f)[24] == f.logKBRAMSize;
    assert data[offset + 25] == Layout(f)[25] == f.country;
    assert data[offset + 26] == Layout(f)[26] == f.licensee;
    assert data[offset + 27] == Layout(f)[27] == f.version;
  }

  // ---------------------------------------------------------------------
  // What `build` computes
  // ---------------------------------------------------------------------

  /** The public fields of a `Header`. */
  datatype HeaderValue = HeaderValue(
    title: seq<bv8>,
    fastROM: bool,
    mappingMode: bv8,
    cartridgeType: bv8,
    cartridgeROMSize: CppValue,
    cartridgeRAMSize: CppValue,
    country: bv8,
    licensee: bv8,
    version: bv8)

  /** The header that accepted raw fields describe: FastROM is bit 4 of the
      map-mode byte, the mapping mode its low four bits, and the sizes are
      `0x400 << log`. The cartridge type is kept as the raw byte. */
  function Interpret(f: HeaderFields): (h: HeaderValue)
    ensures h.mappingMode < 16
    ensures MapModeAccepted(f.mapMode) ==>
              f.mapMode == 0x20 | (if h.fastROM then 0x10 else 0) | h.mappingMode
  {
    HeaderValue(
      f.title,
      f.mapMode & 0x10 != 0,
      f.mapMode & 0x0F,
      f.cartridgeType,
      SizeFromLog(f.logKBROMSize),
      SizeFromLog(f.logKBRAMSize),
      f.country,
      f.licensee,
      f.version)
  }

  /** `build` reads the title and the map-mode byte whatever they hold, and
      the rest of the header only when the map-mode byte is accepted; no
      bounds are checked, so those bytes must exist. */
  predicate BuildInBounds(data: seq<bv8>, offset: nat)
  {
    && offset + MapModeIndex < |data|
    && (MapModeAccepted(data[offset + MapModeIndex]) ==> offset + HeaderLength <= |data|)
  }

  /** Whether `build` accepts the header at `offset`. */
  predicate AcceptsAt(data: seq<bv8>, offset: nat)
    requires offset + MapModeIndex < |data|
  {
    MapModeAccepted(data[offset + MapModeIndex])
  }

  /** The outcome of one `build` call: its return value and the header after it. */
  datatype BuildOutcome = BuildOutcome(accepted: bool, header: HeaderValue)

  /** What `build(data, offset)` does to a header holding `before`: the title
      is always overwritten; on a rejected map-mode byte nothing else
      changes; on an accepted one every field is set from the header there. */
  function BuildSpec(before: HeaderValue, data: seq<bv8>, offset: nat): (out: BuildOutcome)
    requires BuildInBounds(data, offset)
    ensures out.header.title == data[offset..offset + TitleLength]
    ensures out.accepted <==> data[offset + MapModeIndex] >> 5 == 1
    ensures !out.accepted ==> out.header == before.(title := out.header.title)
  {
    if AcceptsAt(data, offset) then
      BuildOutcome(true, Interpret(FieldsAt(data, offset)))
    else
      BuildOutcome(false, before.(title := data[offset..offset + TitleLength]))
  }

  /** On success every field comes from its fixed position after the
      offset, and the result does not depend on the header before. */
  lemma BuildSpecAccepted(before: HeaderValue, data: seq<bv8>, offset: nat)
    requires BuildInBounds(data, offset) && AcceptsAt(data, offset)
    ensures var h := BuildSpec(before, data, offset).header;
      && h.title == data[offset..offset + 21]
      && h.fastROM == (data[offset + 21] & 0x10 == 0x10)
      && h.mappingMode == data[offset + 21] & 0x0F
      && h.cartridgeType == data[offset + 22]
      && h.cartridgeROMSize == SizeFromLog(data[offset + 23])
      && h.cartridgeRAMSize == SizeFromLog(data[offset + 24])
      && h.country == data[offset + 25]
      && h.licensee == data[offset + 26]
      && h.version == data[offset + 27]
  {
  }

  // ---------------------------------------------------------------------
  // What the probing constructor computes
  // ---------------------------------------------------------------------

  /** The mapping a detected header was found for. */
  datatype RomMapping = LoROM | HiROM

  function HeaderOffset(m: RomMapping): nat
  {
    match m
    case LoROM => LoROMOffset
    case HiROM => HiROMOffset
  }

  /** The result of probing both offsets. */
  datatype ProbeOutcome =
    | Detected(mapping: RomMapping, header: HeaderValue)
    | NoValidHeader

  /** The constructor reads at 0xFFC0 only when 0x7FC0 was rejected. */
  predicate ProbeInBounds(data: seq<bv8>)
  {
    && BuildInBounds(data, LoROMOffset)
    && (!AcceptsAt(data, LoROMOffset) ==> BuildInBounds(data, HiROMOffset))
  }

  /** The header the probing constructor produces: the one at 0x7FC0 when it
      is accepted, otherwise the one at 0xFFC0 when that is accepted. */
  function Probe(data: seq<bv8>): (r: ProbeOutcome)
    requires ProbeInBounds(data)
    ensures r.NoValidHeader? <==>
              data[LoROMOffset + 21] >> 5 != 1 && data[HiROMOffset + 21] >> 5 != 1
    ensures r.Detected? ==> r.mapping == (if AcceptsAt(data, LoROMOffset) then LoROM else HiROM)
  {
    if AcceptsAt(data, LoROMOffset) then
      Detected(LoROM, Interpret(FieldsAt(data, LoROMOffset)))
    else if AcceptsAt(data, HiROMOffset) then
      Detected(HiROM, Interpret(FieldsAt(data, HiROMOffset)))
    else
      NoValidHeader
  }

  /** A detected header is the one at its mapping's offset. */
  lemma ProbeDetectedAt(data: seq<bv8>)
    requires ProbeInBounds(data) && Probe(data).Detected?
    ensures var off := HeaderOffset(Probe(data).mapping);
      && off + HeaderLength <= |data|
      && AcceptsAt(data, off)
      && Probe(data).header == Interpret(FieldsAt(data, off))
  {
  }

  /** Once 0x7FC0 is accepted nothing outside its 28 bytes matters: in
      particular the bytes at 0xFFC0 are never read. */
  lemma ProbeIgnoresHiROMWhenLoROMAccepted(d1: seq<bv8>, d2: seq<bv8>)
    requires ProbeInBounds(d1) && AcceptsAt(d1, LoROMOffset)
    requires LoROMOffset + HeaderLength <= |d2|
    requires d2[LoROMOffset..LoROMOffset + HeaderLength] == d1[LoROMOffset..LoROMOffset + HeaderLength]
    ensures ProbeInBounds(d2)
    ensures Probe(d2) == Probe(d1)
  {
    FieldsAtLayout(d2, LoROMOffset, FieldsAt(d1, LoROMOffset));
  }

  /** Any header laid out at 0x7FC0 with an accepted map-mode byte is
      detected as LoROM, field for field, whatever follows it. */
  lemma ProbeDetectsLoROMLayout(prefix: seq<bv8>, f: HeaderFields, suffix: seq<bv8>)
    requires |prefix| == LoROMOffset && |f.title| == TitleLength
    requires MapModeAccepted(f.mapMode)
    ensures var data := prefix + Layout(f) + suffix;
      ProbeInBounds(data) && Probe(data) == Detected(LoROM, Interpret(f))
  {
  }

  /** A header laid out at 0xFFC0 is detected as HiROM, field for field,
      when the map-mode byte at 0x7FC0 is rejected. */
  lemma ProbeDetectsHiROMLayout(prefix: seq<bv8>, f: HeaderFields, suffix: seq<bv8>)
    requires |prefix| == HiROMOffset && |f.title| == TitleLength
    requires MapModeAccepted(f.mapMode)
    requires !MapModeAccepted(prefix[LoROMOffset + MapModeIndex])
    ensures var data := prefix + Layout(f) + suffix;
      ProbeInBounds(data) && Probe(data) == Detected(HiROM, Interpret(f))
  {
  }

  /** The cartridge type byte is not validated: an image whose type byte
      names none of the six known types is still detected, with that byte. */
  lemma UnnamedCartridgeTypeDetected()
    ensures exists data: seq<bv8> ::
      && ProbeInBounds(data)
      && Probe(data).Detected?
      && !IsNamedCartridgeType(Probe(data).header.cartridgeType)
  {
    var f := HeaderFields(seq(TitleLength, _ => 0x20), 0x20, 0x03, 0x08, 0x00, 0x01, 0x01, 0x00);
    var prefix: seq<bv8> := seq(LoROMOffset, _ => 0x00);
    ProbeDetectsLoROMLayout(prefix, f, []);
    var data := prefix + Layout(f) + [];
    assert Probe(data).header.cartridgeType == 0x03;
    assert !IsNamedCartridgeType(0x03);
  }

  // ---------------------------------------------------------------------
  // The size check of `Cartridge`
  // ---------------------------------------------------------------------

  /** `length > MAX_CART_SIZE`: an image is refused exactly when it is
      larger than 96 MiB. */
  function ExceedsMaxCartSize(length: nat): (tooLarge: bool)
    ensures !tooLarge <==> length <= 96 * 1024 * 1024
  {
    length > MaxCartSize
  }

  // ---------------------------------------------------------------------
  // The objects
  // ---------------------------------------------------------------------

  /** `struct Header`: the decoded header, updated in place by `Build`. */
  class Header {
    var title: array<bv8>
    var fastROM: bool
    var mappingMode: bv8
    var cartridgeType: bv8
    var cartridgeROMSize: CppValue
    var cartridgeRAMSize: CppValue
    var country: bv8
    var licensee: bv8
    var version: bv8

    ghost predicate Valid()
      reads this
    {
      title.Length == TitleLength
    }

    /** The current public fields. */
    function Value(): HeaderValue
      reads this, title
    {
      HeaderValue(title[..], fastROM, mappingMode, cartridgeType,
                  cartridgeROMSize, cartridgeRAMSize, country, licensee, version)
    }

    /** `Header() = default`: the title buffer exists; every other field is
        left indeterminate. */
    constructor ()
      ensures Valid() && fresh(title)
    {
      title := new bv8[TitleLength];
    }

    /** `copyInto` for a `std::array<unsigned char, n>`: copies the bytes at
        the cursor into the array and advances the cursor by its size. */
    static method CopyIntoArray(dst: array<bv8>, data: seq<bv8>, cursor: nat) returns (next: nat)
      requires cursor + dst.Length <= |data|
      modifies dst
      ensures dst[..] == data[cursor..cursor + dst.Length]
      ensures next == cursor + dst.Length
    {
      var i := 0;
      while i < dst.Length
        invariant 0 <= i <= dst.Length
        invariant dst[..i] == data[cursor..cursor + i]
      {
        dst[i] := data[cursor + i];
        i := i + 1;
      }
      next := cursor + dst.Length;
    }

    /** `copyInto` for a one-byte field, through a reference or a pointer:
        reads the byte at the cursor and advances the cursor by one. */
    static method CopyIntoByte(data: seq<bv8>, cursor: nat) returns (b: bv8, next: nat)
      requires cursor < |data|
      ensures b == data[cursor]
      ensures next == cursor + 1
    {
      b := data[cursor];
      next := cursor + 1;
    }

    /** `build(cartridge, offset)`: reads the header at `offset` into this
        object and says whether its map-mode byte was accepted. */
    method Build(data: seq<bv8>, offset: nat) returns (ok: bool)
      requires Valid() && BuildInBounds(data, offset)
      modifies this, title
      ensures Valid() && title == old(title)
      ensures BuildOutcome(ok, Value()) == BuildSpec(old(Value()), data, offset)
    {
      var cursor := offset;
      cursor := CopyIntoArray(title, data, cursor);
      var mapMode: bv8;
      mapMode, cursor := CopyIntoByte(data, cursor);

      if mapMode >> 5 != 1 {
        return false;
      }

      fastROM := mapMode & 0x10 != 0;
      mappingMode := mapMode & 0x0F;
      cartridgeType, cursor := CopyIntoByte(data, cursor);

      var logKBROMSize, logKBRAMSize: bv8;
      logKBROMSize, cursor := CopyIntoByte(data, cursor);
      logKBRAMSize, cursor := CopyIntoByte(data, cursor);
      cartridgeROMSize := SizeFromLog(logKBROMSize);
      cartridgeRAMSize := SizeFromLog(logKBRAMSize);

      country, cursor := CopyIntoByte(data, cursor);
      licensee, cursor := CopyIntoByte(data, cursor);
      version, cursor := CopyIntoByte(data, cursor);
      return true;
    }

    /** `Header(cartridge)`: builds at 0x7FC0, then at 0xFFC0 when that
        fails, and throws when both fail. */
    static method FromCartridge(data: seq<bv8>) returns (r: Result<Header, CartridgeError>)
      requires ProbeInBounds(data)
      ensures r.Failure? <==> Probe(data).NoValidHeader?
      ensures r.Failure? ==> r.error == UnableToDetermineFormat
      ensures r.Success? ==>
                && fresh(r.value) && fresh(r.value.title) && r.value.Valid()
                && r.value.Value() == Probe(data).header
    {
      var h := new Header();
      var ok := h.Build(data, LoROMOffset);
      if !ok {
        ok := h.Build(data, HiROMOffset);
        if !ok {
          return Failure(UnableToDetermineFormat);
        }
      }
      return Success(h);
    }
  }

  /** `struct Cartridge`: the loaded image and its decoded header. */
  class Cartridge {
    var header: Header
    var data: seq<bv8>

    /** The aggregate once `data` holds the image and `header` its decoded
        header. */
    constructor Loaded(data: seq<bv8>, header: Header)
      ensures this.data == data && this.header == header
    {
      this.data := data;
      this.header := header;
    }

    /** `Cartridge(filepath)` once the file's bytes are known: refuses an
        image over MAX_CART_SIZE, then decodes its header. */
    static method Load(bytes: seq<bv8>) returns (r: Result<Cartridge, CartridgeError>)
      requires !ExceedsMaxCartSize(|bytes|) ==> ProbeInBounds(bytes)
      ensures ExceedsMaxCartSize(|bytes|) ==> r == Failure(FileTooLarge)
      ensures !ExceedsMaxCartSize(|bytes|) ==>
                && (r.Success? <==> Probe(bytes).Detected?)
                && (r.Failure? ==> r.error == UnableToDetermineFormat)
      ensures r.Success? ==>
                && fresh(r.value) && r.value.data == bytes
                && fresh(r.value.header) && fresh(r.value.header.title)
                && r.value.header.Valid()
                && r.value.header.Value() == Probe(bytes).header
    {
      if ExceedsMaxCartSize(|bytes|) {
        return Failure(FileTooLarge);
      }
      var header := Header.FromCartridge(bytes);
      if header.Failure? {
        return Failure(header.error);
      }
      var cart := new Cartridge.Loaded(bytes, header.value);
      return Success(cart);
    }
  }
}
