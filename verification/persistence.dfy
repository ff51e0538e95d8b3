/** The configuration store: bulk save, per-field save, load, and the
    bootstrap flash that also serves as factory reset. */
module Persistence {
  import opened Bytes
  import opened Settings

  /** The byte `saveSetting(tag)` writes at offset `tag`. */
  function FieldByte(c: Config, tag: nat): (r: Byte)
    requires tag < StoreSize
  {
    match tag
    case 0 => c.id
    case 1 => c.position
    case 2 => c.topPosition
    case 3 => c.upperThreshold
    case 4 => c.lowerThreshold
    case 5 => c.minuteOffset
    case 6 => BoolByte(c.automated)
    case 7 => BoolByte(c.ldrEnabled)
    case 8 => BoolByte(c.positionSaved)
    case 9 => c.moveTime
    case _ => BoolByte(c.timeEnabled)
  }

  /** The store contents `saveSettings` writes: all eleven fields in their
      fixed order. The result depends on the configuration alone. */
  function Image(c: Config): (r: Store)
    ensures forall k :: 0 <= k < StoreSize ==> r[k] == FieldByte(c, k)
  {
    [c.id, c.position, c.topPosition, c.upperThreshold, c.lowerThreshold,
     c.minuteOffset, BoolByte(c.automated), BoolByte(c.ldrEnabled),
     BoolByte(c.positionSaved), c.moveTime, BoolByte(c.timeEnabled)]
  }

  /** `saveSettings`: the whole configuration is written to the store. */
  function SaveSettings(h: Handler): (r: Handler)
    ensures r.cfg == h.cfg
    ensures forall k :: 0 <= k < StoreSize ==> r.rom[k] == FieldByte(h.cfg, k)
  {
    h.(rom := Image(h.cfg))
  }

  /** The persisted fields of `c` reset to their defaults; the id, the
      closed flag and the cached schedule are left as they were. */
  function WithDefaults(c: Config): (r: Config)
    ensures ThresholdBand(r)
    ensures r.id == c.id && r.closed == c.closed
    ensures r.minuteToOpen == c.minuteToOpen && r.minuteToClose == c.minuteToClose
  {
    c.(position := 0, topPosition := DefaultTopPosition,
       upperThreshold := DefaultUpperThreshold, lowerThreshold := DefaultLowerThreshold,
       minuteOffset := DefaultOpenOffset, automated := DefaultAutomation,
       ldrEnabled := DefaultLdr, positionSaved := DefaultPositionSaved,
       moveTime := DefaultMoveTime, timeEnabled := DefaultTime)
  }

  /** A value `random(1, 254)` can return. */
  predicate FreshId(id: int) {
    1 <= id <= 253
  }

  /** `flash`: write the defaults and a fresh id to the store and reset the
      in-memory fields to the defaults. The in-memory id is NOT replaced by
      the fresh one; only the store receives it. */
  function Flash(h: Handler, freshId: Byte): (r: Handler)
    requires FreshId(freshId)
    ensures r.rom == Image(WithDefaults(h.cfg).(id := freshId))
    ensures r.rom[DoorIdOffset] != UnsetId
    ensures r.cfg == WithDefaults(h.cfg)
    ensures r.cfg.id == h.cfg.id
    ensures ThresholdBand(r.cfg)
    ensures forall k :: DoorIdOffset < k < StoreSize ==> r.rom[k] == FieldByte(r.cfg, k)
  {
    Handler(
      WithDefaults(h.cfg),
      [freshId, 0, DefaultTopPosition, DefaultUpperThreshold, DefaultLowerThreshold,
       DefaultOpenOffset, BoolByte(DefaultAutomation), BoolByte(DefaultLdr),
       BoolByte(DefaultPositionSaved), DefaultMoveTime, BoolByte(DefaultTime)])
  }

  /** `saveSetting(tag)`: a field tag writes only that field's byte, the
      reset tag re-flashes, and any other tag writes nothing. */
  function SaveSetting(h: Handler, tag: int, freshId: Byte): (r: Handler)
    requires FreshId(freshId)
    ensures 0 <= tag < StoreSize ==>
              r.cfg == h.cfg && r.rom[tag] == FieldByte(h.cfg, tag) &&
              forall k :: 0 <= k < StoreSize && k != tag ==> r.rom[k] == h.rom[k]
    ensures tag == ResetTag ==> r == Flash(h, freshId)
    ensures tag != ResetTag && !(0 <= tag < StoreSize) ==> r == h
  {
    if 0 <= tag < StoreSize then h.(rom := h.rom[tag := FieldByte(h.cfg, tag)])
    else if tag == ResetTag then Flash(h, freshId)
    else h
  }

  /** Writing one field: the frame of `SaveSetting` for field tags, without
      the fresh id that only the reset tag needs. */
  function SaveField(h: Handler, tag: nat): (r: Handler)
    requires tag < StoreSize
    ensures r == SaveSetting(h, tag, 1)
    ensures forall f :: FreshId(f) ==> r == SaveSetting(h, tag, f)
  {
    h.(rom := h.rom[tag := FieldByte(h.cfg, tag)])
  }

  /** `factoryReset`: `saveSetting` with the reset tag. */
  function FactoryReset(h: Handler, freshId: Byte): (r: Handler)
    requires FreshId(freshId)
    ensures r.cfg == WithDefaults(h.cfg)
    ensures r.rom == Image(WithDefaults(h.cfg).(id := freshId))
  {
    SaveSetting(h, ResetTag, freshId)
  }

  /** `loadSettings`: the id is read first; the uninitialised id 255 makes
      the handler flash the defaults (keeping 255 in memory), any other id
      loads every field from the store, non-zero bytes reading as true. */
  function LoadSettings(h: Handler, freshId: Byte): (r: Handler)
    requires FreshId(freshId)
    ensures r.cfg.id == h.rom[DoorIdOffset]
    ensures h.rom[DoorIdOffset] == UnsetId ==>
              r.cfg == WithDefaults(h.cfg).(id := UnsetId) &&
              r.rom[DoorIdOffset] == freshId &&
              r.rom[1..] == Image(WithDefaults(h.cfg))[1..]
    ensures h.rom[DoorIdOffset] != UnsetId ==>
              r.rom == h.rom &&
              r.cfg.closed == h.cfg.closed &&
              r.cfg.minuteToOpen == h.cfg.minuteToOpen &&
              r.cfg.minuteToClose == h.cfg.minuteToClose &&
              forall k :: 0 <= k < StoreSize ==> FieldByte(r.cfg, k) == Canonical(h.rom, k)
  {
    var rom := h.rom;
    var c := h.cfg.(id := rom[0]);
    if c.id == UnsetId then
      Flash(h.(cfg := c), freshId)
    else
      h.(cfg := c.(
        position := rom[1], topPosition := rom[2],
        upperThreshold := rom[3], lowerThreshold := rom[4],
        minuteOffset := rom[5], automated := ByteBool(rom[6]),
        ldrEnabled := ByteBool(rom[7]), positionSaved := ByteBool(rom[8]),
        moveTime := rom[9], timeEnabled := ByteBool(rom[10])))
  }

  /** Offsets of the store that hold a `bool` setting. */
  predicate FlagOffset(k: nat) {
    k == AutomationOffset || k == LdrOffset || k == PositionSavedOffset || k == TimeOffset
  }

  /** The byte at offset `k` as it reads back into its field: flag bytes
      collapse to 0 or 1, value bytes are kept. */
  function Canonical(rom: Store, k: nat): Byte
    requires k < StoreSize
  {
    if FlagOffset(k) then BoolByte(ByteBool(rom[k])) else rom[k]
  }

  /** A store every flag byte of which is 0 or 1, as `saveSettings` and
      `flash` leave it. */
  predicate CanonicalStore(rom: Store) {
    forall k :: 0 <= k < StoreSize ==> Canonical(rom, k) == rom[k]
  }

  /** Loading what was saved changes nothing: a configuration whose id is
      not the reserved 255 survives a save and a reload intact. */
  lemma LoadAfterSave(c: Config, rom: Store, freshId: Byte)
    requires FreshId(freshId)
    requires c.id != UnsetId
    ensures LoadSettings(SaveSettings(Handler(c, rom)), freshId) == Handler(c, Image(c))
  {
  }

  /** Saving what was loaded reproduces the store, for every initialised
      store whose flag bytes are 0 or 1. */
  lemma SaveAfterLoad(h: Handler, freshId: Byte)
    requires FreshId(freshId)
    requires h.rom[DoorIdOffset] != UnsetId
    requires CanonicalStore(h.rom)
    ensures SaveSettings(LoadSettings(h, freshId)).rom == h.rom
  {
    var r := LoadSettings(h, freshId);
    forall k | 0 <= k < StoreSize
      ensures Image(r.cfg)[k] == h.rom[k]
    {
      assert FieldByte(r.cfg, k) == Canonical(h.rom, k);
    }
  }

  /** The bulk save and the per-field save agree: saving fields 0..n-1 one
      at a time writes the bulk image on those offsets and nothing else. */
  function SaveFields(h: Handler, n: nat): (r: Handler)
    requires n <= StoreSize
    decreases n
  {
    if n == 0 then h else SaveField(SaveFields(h, n - 1), n - 1)
  }

  lemma {:induction false} SaveFieldsPrefix(h: Handler, n: nat)
    requires n <= StoreSize
    ensures SaveFields(h, n).cfg == h.cfg
    ensures forall k :: 0 <= k < n ==> SaveFields(h, n).rom[k] == Image(h.cfg)[k]
    ensures forall k :: n <= k < StoreSize ==> SaveFields(h, n).rom[k] == h.rom[k]
  {
    if n > 0 {
      SaveFieldsPrefix(h, n - 1);
    }
  }

  /** Saving each of the eleven fields individually is the same as one
      `saveSettings`. */
  lemma SaveEveryFieldIsSaveSettings(h: Handler)
    ensures SaveFields(h, StoreSize) == SaveSettings(h)
  {
    SaveFieldsPrefix(h, StoreSize);
    assert SaveFields(h, StoreSize).rom == Image(h.cfg);
  }

  /** First boot: a store marked uninitialised ends up holding the defaults
      and a fresh id, while the handler's own id stays 255 until the next
      boot; that boot then loads the defaults with the fresh id. */
  lemma BootstrapThenReboot(rom: Store, freshId: Byte, nextId: Byte)
    requires FreshId(freshId) && FreshId(nextId)
    requires rom[DoorIdOffset] == UnsetId
    ensures LoadSettings(Initial(rom), freshId).cfg.id == UnsetId
    ensures LoadSettings(Initial(rom), freshId).rom[DoorIdOffset] == freshId
    ensures ThresholdBand(LoadSettings(Initial(rom), freshId).cfg)
    ensures var second := LoadSettings(Initial(LoadSettings(Initial(rom), freshId).rom), nextId);
            second.cfg == WithDefaults(Initial(rom).cfg).(id := freshId) &&
            second.rom == Image(second.cfg)
  {
    var first := LoadSettings(Initial(rom), freshId);
    LoadAfterSave(WithDefaults(Initial(rom).cfg).(id := freshId), rom, nextId);
  }
}
