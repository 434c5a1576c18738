/** Where the record lives: one sector of NOR flash. Erasing sets every bit that
    still can be set, programming only clears bits, and a save is believed only
    after it has been read back. */
module ConfigFlash {
  import opened Config
  import opened Crc32
  import opened NetConfig

  const SECTOR: nat := 4096

  datatype Source = FromNone | FromBuild | FromFlash

  /** A sector and its wear: bit b of worn[i] is 0 when that cell is stuck at 0. */
  datatype Sector = Sector(bytes: seq<byte>, worn: seq<byte>) {
    ghost predicate Shaped() {
      |bytes| == |worn| == SECTOR
    }

    function Erased(): Sector {
      Sector(worn, worn)
    }

    function Programmed(page: seq<byte>): (s: Sector)
      requires |page| == RECORD_BYTES && |bytes| == SECTOR
      ensures |s.bytes| == SECTOR && s.worn == worn
      ensures forall i :: 0 <= i < SECTOR ==> s.bytes[i] == if i < RECORD_BYTES then bytes[i] & page[i] else bytes[i]
    {
      Sector(seq(SECTOR, i requires 0 <= i < SECTOR => if i < RECORD_BYTES then bytes[i] & page[i] else bytes[i]), worn)
    }

    /** The record page as it reads out. */
    function Record(): seq<byte>
      requires |bytes| == SECTOR
    {
      bytes[..RECORD_BYTES]
    }

    ghost predicate Healthy() {
      forall i :: 0 <= i < |worn| ==> worn[i] == 0xFF
    }
  }

  /** What a boot finds: the record, else the build defaults, else nothing. */
  function LoadFrom(s: Sector, build: Build): (Source, NetConfig)
    requires |s.bytes| == SECTOR
  {
    var stored := Parse(s.Record());
    if stored.Some? then (FromFlash, stored.value)
    else
      var d := BuildDefaults(build);
      if d.Some? then (FromBuild, d.value) else (FromNone, BLANK)
  }

  /** Whether the two flash operations of a save or erase got to run, and
      whether the firmware image leaves the sector alone. */
  datatype Luck = Luck(imageClear: bool, eraseRuns: bool, programRuns: bool)

  /** The sector after save(c), and what save returned. */
  function SaveTo(s: Sector, c: NetConfig, luck: Luck): (bool, Sector)
    requires |s.bytes| == |s.worn| == SECTOR
  {
    if Validate(c) != Ok || !luck.imageClear then (false, s)
    else if !luck.eraseRuns then (false, s)
    else if !luck.programRuns then (false, s.Erased())
    else
      var s' := s.Erased().Programmed(Serialize(c));
      (Parse(s'.Record()).Some? && s'.Record() == Serialize(c), s')
  }

  function EraseAll(s: Sector, luck: Luck): (bool, Sector) {
    if luck.imageClear && luck.eraseRuns then (true, s.Erased()) else (false, s)
  }

  /** Whatever stops a save or an erase before the sector is erased leaves every
      cell of it, and so what the next boot loads, as it was; and says so. */
  lemma {:induction false} StoppedEarlyKeepsFlash(s: Sector, c: NetConfig, luck: Luck, build: Build)
    requires s.Shaped()
    ensures !Valid(c) || !luck.imageClear || !luck.eraseRuns ==>
              SaveTo(s, c, luck) == (false, s) && LoadFrom(SaveTo(s, c, luck).1, build) == LoadFrom(s, build)
    ensures EraseAll(s, luck).0 <==> luck.imageClear && luck.eraseRuns
    ensures !EraseAll(s, luck).0 ==> EraseAll(s, luck).1 == s
  {
    hide Validate, Parse, Serialize, BuildDefaults;
  }

  /** If save says it worked, the next boot runs on exactly these settings. */
  lemma {:induction false} SavedSurvivesReboot(s: Sector, c: NetConfig, luck: Luck, build: Build)
    requires s.Shaped() && SaveTo(s, c, luck).0
    ensures LoadFrom(SaveTo(s, c, luck).1, build) == (FromFlash, Canonical(c))
  {
    RoundTrip(c);
    hide Serialize, Parse, Validate;
  }

  /** The cells this record needs set can still be set. */
  ghost predicate Takes(worn: seq<byte>, page: seq<byte>)
    requires |page| <= |worn|
  {
    forall i :: 0 <= i < |page| ==> worn[i] & page[i] == page[i]
  }

  /** Exactly when save reports success: wear that the record would hit is
      always caught by the read-back. */
  lemma {:induction false} SaveSucceedsIff(s: Sector, c: NetConfig, luck: Luck)
    requires s.Shaped()
    ensures SaveTo(s, c, luck).0 <==>
            Valid(c) && luck == Luck(true, true, true) && Takes(s.worn, Serialize(c))
  {
    hide Serialize, Parse, Validate, Takes, Sector.Programmed;
    if Valid(c) {
      RoundTrip(c);
      ReadBackIff(s, Serialize(c));
    }
  }

  lemma {:induction false} ReadBackIff(s: Sector, page: seq<byte>)
    requires s.Shaped() && |page| == RECORD_BYTES
    ensures s.Erased().Programmed(page).Record() == page <==> Takes(s.worn, page)
  {
    var s' := s.Erased().Programmed(page);
    assert forall i :: 0 <= i < RECORD_BYTES ==> s'.Record()[i] == s.worn[i] & page[i];
    if Takes(s.worn, page) {
      assert s'.Record() == page;
    }
  }

  /** A healthy sector takes every valid record. */
  lemma {:induction false} HealthySaves(s: Sector, c: NetConfig)
    requires s.Shaped() && s.Healthy() && Valid(c)
    ensures SaveTo(s, c, Luck(true, true, true)).0
  {
    SaveSucceedsIff(s, c, Luck(true, true, true));
    hide Serialize, SaveTo;
    assert Takes(s.worn, Serialize(c)) by {
      forall i | 0 <= i < RECORD_BYTES ensures s.worn[i] & Serialize(c)[i] == Serialize(c)[i] {
        KeepsAll(Serialize(c)[i]);
      }
    }
  }

  lemma {:induction false} KeepsAll(b: byte)
    ensures 0xFF & b == b
  {
  }

  /** An erased sector whose cells all take an erase holds no record: a boot
      after an erase runs on the build defaults or on nothing. */
  lemma {:induction false} ErasedHoldsNothing(s: Sector, build: Build)
    requires s.Shaped() && s.Healthy()
    ensures LoadFrom(s.Erased(), build).0 != FromFlash
  {
    hide Validate, Crc;
    assert s.Erased().Record()[0] == 0xFF;
    MagicIsNotErased(s.Erased().Record());
  }

  lemma {:induction false} MagicIsNotErased(page: seq<byte>)
    requires |page| >= 4 && page[0] == 0xFF
    ensures Get32(page, 0) != MAGIC
  {
  }

  /** The flash half of the settings module. */
  class ConfigStore {
    const sector: array<byte>
    const page: array<byte>
    const worn: seq<byte>
    const imageClear: bool
    const build: Build

    ghost predicate Valid()
    {
      sector.Length == SECTOR == |worn| && page.Length == RECORD_BYTES && sector != page
    }

    ghost function View(): Sector
      reads sector
    {
      Sector(sector[..], worn)
    }

    constructor (sector: array<byte>, worn: seq<byte>, imageClear: bool, build: Build)
      requires sector.Length == SECTOR == |worn|
      ensures Valid() && this.sector == sector && this.worn == worn && this.imageClear == imageClear && this.build == build
      ensures fresh(page)
    {
      this.sector, this.worn, this.imageClear, this.build := sector, worn, imageClear, build;
      page := new byte[RECORD_BYTES](_ => 0);
    }

    method Load() returns (src: Source, out: NetConfig)
      requires Valid()
      modifies page
      ensures (src, out) == LoadFrom(View(), build)
    {
      hide Parse, Validate;
      forall i | 0 <= i < RECORD_BYTES { page[i] := sector[i]; }
      assert page[..] == View().Record();
      var stored := Parse(page[..]);
      if stored.Some? { return FromFlash, stored.value; }
      var d := BuildDefaults(build);
      if d.Some? { return FromBuild, d.value; }
      return FromNone, BLANK;
    }

    /** flash_range_erase over the sector: the hardware sets what it can. */
    method DoErase()
      requires Valid()
      modifies sector
      ensures View() == old(View()).Erased()
    {
      for i := 0 to SECTOR
        invariant sector[..i] == worn[..i]
      {
        sector[i] := 0xFF & worn[i];
        KeepsAll(worn[i]);
        assert sector[..i + 1] == sector[..i] + [worn[i]];
      }
    }

    /** flash_range_program of the page buffer: bits can only be cleared. */
    method DoProgram()
      requires Valid()
      modifies sector
      ensures View() == old(View()).Programmed(page[..])
    {
      for i := 0 to RECORD_BYTES
        invariant forall k :: 0 <= k < SECTOR ==>
                    sector[k] == if k < i then old(sector[k]) & page[k] else old(sector[k])
      {
        sector[i] := sector[i] & page[i];
      }
      assert View().bytes == old(View()).Programmed(page[..]).bytes;
    }

    method Save(c: NetConfig, eraseRuns: bool, programRuns: bool) returns (ok: bool)
      requires Valid()
      modifies page, sector
      ensures (ok, View()) == SaveTo(old(View()), c, Luck(imageClear, eraseRuns, programRuns))
    {
      var why := CheckFields(c);
      hide Parse, Validate, Serialize;
      if why != Ok || !imageClear { return false; }
      var n := SerializeInto(c, page, page.Length);
      assert page[..] == page[..RECORD_BYTES] == Serialize(c);
      if !eraseRuns { return false; }
      DoErase();
      if !programRuns { return false; }
      DoProgram();
      var check := Parse(sector[..RECORD_BYTES]);
      ok := check.Some? && sector[..RECORD_BYTES] == page[..];
    }

    method Erase(eraseRuns: bool) returns (ok: bool)
      requires Valid()
      modifies sector
      ensures (ok, View()) == EraseAll(old(View()), Luck(imageClear, eraseRuns, true))
    {
      if !imageClear { return false; }
      if !eraseRuns { return false; }
      DoErase();
      ok := true;
    }
  }
}
