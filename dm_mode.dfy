/** The DM mode commander app (`dmMode`): the amplitude of each mode of a
    mode cube, set through two INDI properties, and the bookkeeping of
    each write of the resulting shape into a deformable-mirror channel
    stream.

    The mode cube file, the shared-memory stream and `ImageStreamIO_typesize`
    are parameters; the shape itself (the amplitude-weighted sum of the
    mode images) is recorded only as the amplitudes it is made from. */
module DmModeApp {
  import opened Wrappers
  import opened MagAoxApp
  import opened Text

  /** The dimensions of the mode cube: one image of `rows` x `cols` per
      mode. */
  datatype ModeCube = ModeCube(planes: nat, rows: nat, cols: nat)

  /** The element type code of a stream (`_DATATYPE_FLOAT` or another). */
  datatype ElemType = FloatElem | OtherElem(code: nat)

  /** `sizeof(float)`. */
  const FloatSize: int := 4

  /** The semaphore count `ImageStreamIO` streams are created with. */
  const MinSemaphores: int := 10

  /** The metadata record of a stream (`md[0]`). */
  datatype StreamMeta = StreamMeta(elemType: ElemType, sem: int, size0: nat, size1: nat, size2: nat,
                                   write: bool, cnt0: nat, cnt1: nat)

  /** One shape written into the stream: the slot it went to and the
      amplitudes it was made from. */
  datatype Frame = Frame(slot: nat, amps: seq<real>)

  /** A `current_amps` or `target_amps` update: the property name and the
      elements it carries. */
  datatype AmpsProperty = AmpsProperty(name: string, values: map<string, real>)

  /** The two amplitude properties; both callbacks do the same thing. */
  datatype AmpsTarget = CurrentAmps | TargetAmps {
    function Name(): string {
      match this
      case CurrentAmps => "current_amps"
      case TargetAmps => "target_amps"
    }
  }

  /** The name of element `n`: the index in decimal, zero-padded to two
      digits. */
  function ElementName(n: nat): (name: string)
    ensures |name| >= 2
    ensures forall i :: 0 <= i < |name| ==> '0' <= name[i] <= '9'
    ensures n < 10 ==> name == ['0', DigitChar(n)]
  {
    if n < 10 then "0" + Decimal(n) else Decimal(n)
  }

  /** Reading an element name back gives its index. */
  lemma ElementNameValue(n: nat)
    ensures DecimalValue(ElementName(n)) == n
  {
    DecimalRoundTrip(n);
    if n < 10 {
      var name := ElementName(n);
      assert name[..1] == "0";
      assert name[..1][..0] == [];
      DigitRoundTrip(n);
    }
  }

  /** No two elements share a name, so each name addresses one amplitude. */
  lemma ElementNamesDistinct(m: nat, n: nat)
    requires m != n
    ensures ElementName(m) != ElementName(n)
  {
    ElementNameValue(m);
    ElementNameValue(n);
  }

  /** `std::vector::resize(n, 0)`. */
  function Resized(v: seq<real>, n: nat): (r: seq<real>)
    ensures |r| == n
    ensures forall i :: 0 <= i < n ==> r[i] == if i < |v| then v[i] else 0.0
  {
    if n <= |v| then v[..n] else v + seq(n - |v|, _ => 0.0)
  }

  /** The slot of the stream a shape goes to: the current slot `cnt1` of a
      cube stream, 0 for a single-image stream. */
  function DestinationSlot(md: StreamMeta): (slot: nat)
    ensures md.size2 > 0 ==> slot == md.cnt1
    ensures md.size2 == 0 ==> slot == 0
  {
    if md.size2 > 0 then md.cnt1 else 0
  }

  /** The stream can take shapes made from this mode cube: float elements
      of the size of a float, and a `rows` x `cols` image. */
  predicate StreamMatches(md: StreamMeta, typeSize: int, modes: ModeCube) {
    md.elemType == FloatElem && typeSize == FloatSize && md.size0 == modes.rows && md.size1 == modes.cols
  }

  class DmMode {
    const typeSizeOf: ElemType -> int      // ImageStreamIO_typesize
    var modeCube: string
    var dmName: string
    var dmChannelName: string
    var modes: ModeCube
    var amps: seq<real>
    var elNames: seq<string>
    var currAmps: seq<real>                // current_amps as published, by element
    var md: StreamMeta
    var width: nat
    var height: nat
    var dataType: ElemType
    var typeSize: int
    var streamOpened: bool
    var restart: bool
    var state: StateCode
    var frames: seq<Frame>                 // every shape written, in order

    /** One name and one published value per amplitude, element `n` named
        `ElementName(n)`. */
    predicate Valid()
      reads this
    {
      |elNames| == |amps| && |currAmps| == |amps| &&
      forall n :: 0 <= n < |elNames| ==> elNames[n] == ElementName(n)
    }

    constructor (typeSizeOf: ElemType -> int, initial: StateCode)
      ensures Valid()
      ensures this.typeSizeOf == typeSizeOf && state == initial
      ensures amps == [] && frames == [] && streamOpened && !restart
      ensures width == 0 && height == 0 && typeSize == 0
    {
      this.typeSizeOf := typeSizeOf;
      modeCube := "";
      dmName := "";
      dmChannelName := "";
      modes := ModeCube(0, 0, 0);
      amps := [];
      elNames := [];
      currAmps := [];
      md := *;
      width := 0;
      height := 0;
      dataType := OtherElem(0);
      typeSize := 0;
      streamOpened := true;
      restart := false;
      state := initial;
      frames := [];
    }

    /** Reads `dm.modeCube`, `dm.channelName` and `dm.name`; each is
        `None` when not configured. The DM name defaults to the channel
        name. */
    method LoadConfigImpl(cubePath: Option<string>, channelName: Option<string>, name: Option<string>)
      returns (rv: int)
      modifies this`modeCube, this`dmChannelName, this`dmName
      ensures rv == 0
      ensures modeCube == cubePath.GetOr(old(modeCube))
      ensures dmChannelName == channelName.GetOr(old(dmChannelName))
      ensures dmName == (if name.Some? then name.value else dmChannelName)
    {
      if cubePath.Some? {
        modeCube := cubePath.value;
      }
      if channelName.Some? {
        dmChannelName := channelName.value;
      }
      dmName := dmChannelName;
      if name.Some? {
        dmName := name.value;
      }
      return 0;
    }

    /** Sizes the amplitudes to the mode cube (`None` when the FITS file
        could not be read), names the elements and publishes them at 0. */
    method AppStartup(cube: Option<ModeCube>) returns (rv: int)
      requires Valid()
      modifies this`modes, this`amps, this`elNames, this`currAmps, this`state
      ensures Valid()
      ensures cube.None? ==>
                rv == -1 && modes == old(modes) && amps == old(amps) && elNames == old(elNames) &&
                currAmps == old(currAmps) && state == old(state)
      ensures cube.Some? ==>
                rv == 0 && modes == cube.value && state == NotConnected &&
                amps == Resized(old(amps), cube.value.planes) &&
                currAmps == seq(cube.value.planes, _ => 0.0)
    {
      if cube.None? {
        return -1;
      }
      modes := cube.value;
      amps := Resized(amps, modes.planes);
      var names := elNames;
      elNames := seq(|amps|, i requires 0 <= i => if i < |names| then names[i] else "");
      currAmps := Resized(currAmps, |amps|);
      var n := 0;
      while n < |amps|
        modifies this`elNames, this`currAmps
        invariant 0 <= n <= |amps|
        invariant |elNames| == |amps| && |currAmps| == |amps|
        invariant forall i :: 0 <= i < n ==> elNames[i] == ElementName(i) && currAmps[i] == 0.0
      {
        elNames := elNames[n := ElementName(n)];
        currAmps := currAmps[n := 0.0];
        n := n + 1;
      }
      assert currAmps == seq(modes.planes, _ => 0.0);
      state := NotConnected;
      return 0;
    }

    /** Writes the shape of the current amplitudes into the stream and
        publishes the amplitudes; without an opened stream it writes
        nothing. */
    method SendCommand() returns (rv: int)
      requires Valid()
      modifies this`md, this`frames, this`currAmps
      ensures Valid()
      ensures rv == 0
      ensures !streamOpened ==> md == old(md) && frames == old(frames) && currAmps == old(currAmps)
      ensures streamOpened ==>
                md == old(md).(write := false, cnt0 := old(md).cnt0 + 1) &&
                frames == old(frames) + [Frame(DestinationSlot(old(md)), amps)] &&
                currAmps == amps
    {
      if !streamOpened {
        return 0;
      }
      md := md.(write := true);
      var slot := if md.size2 > 0 then md.cnt1 else 0;
      frames := frames + [Frame(slot, amps)];
      md := md.(cnt0 := md.cnt0 + 1);
      md := md.(write := false);
      var n := 0;
      while n < |amps|
        modifies this`currAmps
        invariant 0 <= n <= |amps| && |currAmps| == |amps|
        invariant forall i :: 0 <= i < n ==> currAmps[i] == amps[i]
      {
        currAmps := currAmps[n := amps[n]];
        n := n + 1;
      }
      assert currAmps == amps;
      return 0;
    }

    /** Connects to the DM channel (`open` is the outcome of
        `ImageStreamIO_openIm`: `None` on failure) and checks the stream
        against the mode cube; a matching stream gets a zero shape and the
        app becomes READY. */
    method AppLogic(open: Option<StreamMeta>) returns (rv: int)
      requires Valid()
      modifies this`streamOpened, this`restart, this`md, this`state, this`dataType, this`typeSize,
               this`width, this`height, this`amps, this`frames, this`currAmps
      ensures Valid()
      // NOTCONNECTED: only an opened stream with enough semaphores connects.
      ensures old(state) == NotConnected ==>
                !restart && (streamOpened <==> open.Some? && open.value.sem >= MinSemaphores)
      ensures old(state) == NotConnected && !streamOpened ==>
                rv == 0 && state == NotConnected && amps == old(amps) && frames == old(frames) &&
                md == (if open.Some? then open.value else old(md)) && currAmps == old(currAmps) &&
                dataType == old(dataType) && typeSize == old(typeSize) &&
                width == old(width) && height == old(height)
      // A stream connected in an earlier tick keeps its flags.
      ensures old(state) == Connected ==> streamOpened == old(streamOpened) && restart == old(restart)
      // CONNECTED, entered now or in an earlier tick: validate, zero, write.
      ensures var meta := if old(state) == NotConnected && open.Some? then open.value else old(md);
              (old(state) == Connected || (old(state) == NotConnected && streamOpened)) ==>
                dataType == meta.elemType && typeSize == typeSizeOf(meta.elemType) &&
                width == meta.size0 && height == meta.size1 &&
                if StreamMatches(meta, typeSize, modes) then
                  rv == 0 && state == Ready &&
                  amps == seq(|old(amps)|, _ => 0.0) &&
                  (streamOpened ==>
                     md == meta.(write := false, cnt0 := meta.cnt0 + 1) &&
                     frames == old(frames) + [Frame(DestinationSlot(meta), amps)] &&
                     currAmps == amps) &&
                  (!streamOpened ==> md == meta && frames == old(frames) && currAmps == old(currAmps))
                else
                  rv == -1 && state == Connected && amps == old(amps) && frames == old(frames) && md == meta &&
                  currAmps == old(currAmps)
      // Any other state: nothing to do.
      ensures old(state) != NotConnected && old(state) != Connected ==>
                rv == 0 && state == old(state) && amps == old(amps) && frames == old(frames) && md == old(md) &&
                currAmps == old(currAmps) && streamOpened == old(streamOpened) && restart == old(restart) &&
                dataType == old(dataType) && typeSize == old(typeSize) &&
                width == old(width) && height == old(height)
    {
      if state == NotConnected {
        OpenChannel(open);
      }
      if state == Connected {
        rv := ConfigureStream();
        return;
      }
      return 0;
    }

    /** The NOTCONNECTED step: `open` is the outcome of `ImageStreamIO_openIm`;
        a stream with too few semaphores is closed again. */
    method OpenChannel(open: Option<StreamMeta>)
      modifies this`streamOpened, this`restart, this`md, this`state
      ensures !restart && (streamOpened <==> open.Some? && open.value.sem >= MinSemaphores)
      ensures md == (if open.Some? then open.value else old(md))
      ensures state == if streamOpened then Connected else old(state)
    {
      streamOpened := false;
      restart := false;
      if open.Some? {
        md := open.value;
        if md.sem < MinSemaphores {
          // ImageStreamIO_closeIm
        } else {
          streamOpened := true;
        }
      }
      if streamOpened {
        state := Connected;
      }
    }

    /** The CONNECTED step: checks the stream against the mode cube and, when
        it matches, zeroes and sends the shape and becomes READY. */
    method ConfigureStream() returns (rv: int)
      requires Valid() && state == Connected
      modifies this`md, this`state, this`dataType, this`typeSize,
               this`width, this`height, this`amps, this`frames, this`currAmps
      ensures Valid()
      ensures dataType == old(md).elemType && typeSize == typeSizeOf(old(md).elemType) &&
              width == old(md).size0 && height == old(md).size1
      ensures StreamMatches(old(md), typeSize, modes) ==>
                rv == 0 && state == Ready &&
                amps == seq(|old(amps)|, _ => 0.0) &&
                (streamOpened ==>
                   md == old(md).(write := false, cnt0 := old(md).cnt0 + 1) &&
                   frames == old(frames) + [Frame(DestinationSlot(old(md)), amps)] &&
                   currAmps == amps) &&
                (!streamOpened ==> md == old(md) && frames == old(frames) && currAmps == old(currAmps))
      ensures !StreamMatches(old(md), typeSize, modes) ==>
                rv == -1 && state == Connected && amps == old(amps) && frames == old(frames) && md == old(md) &&
                currAmps == old(currAmps)
    {
      dataType := md.elemType;
      typeSize := typeSizeOf(dataType);
      width := md.size0;
      height := md.size1;
      if dataType != FloatElem {
        return -1;
      }
      if typeSize != FloatSize {
        return -1;
      }
      if width != modes.rows {
        return -1;
      }
      if height != modes.cols {
        return -1;
      }
      ZeroShape();
      state := Ready;
      return 0;
    }

    /** Zeroes the amplitudes and sends the zero shape. */
    method ZeroShape()
      requires Valid()
      modifies this`amps, this`md, this`frames, this`currAmps
      ensures Valid()
      ensures amps == seq(|old(amps)|, _ => 0.0)
      ensures !streamOpened ==> md == old(md) && frames == old(frames) && currAmps == old(currAmps)
      ensures streamOpened ==>
                md == old(md).(write := false, cnt0 := old(md).cnt0 + 1) &&
                frames == old(frames) + [Frame(DestinationSlot(old(md)), amps)] &&
                currAmps == amps
    {
      ZeroAmps();
      var _ := SendCommand();
    }

    /** Sets every amplitude to 0. */
    method ZeroAmps()
      modifies this`amps
      ensures amps == seq(|old(amps)|, _ => 0.0)
    {
      var n := 0;
      while n < |amps|
        invariant 0 <= n <= |amps| && |amps| == |old(amps)|
        invariant forall i :: 0 <= i < n ==> amps[i] == 0.0
      {
        amps := amps[n := 0.0];
        n := n + 1;
      }
      assert amps == seq(|old(amps)|, _ => 0.0);
    }

    /** The new-property callback of `current_amps` or `target_amps`:
        every amplitude whose element the update carries is overwritten,
        and the shape is sent when at least one was. */
    method AmpsCallback(which: AmpsTarget, ipRecv: AmpsProperty) returns (rv: int)
      requires Valid()
      modifies this`amps, this`md, this`frames, this`currAmps
      ensures Valid()
      ensures ipRecv.name != which.Name() ==>
                rv == -1 && amps == old(amps) && md == old(md) && frames == old(frames) && currAmps == old(currAmps)
      ensures ipRecv.name == which.Name() ==>
                rv == 0 && |amps| == |old(amps)| &&
                forall n :: 0 <= n < |amps| ==>
                  amps[n] == if elNames[n] in ipRecv.values then ipRecv.values[elNames[n]] else old(amps)[n]
      ensures var found := exists n :: 0 <= n < |old(amps)| && elNames[n] in ipRecv.values;
              ipRecv.name == which.Name() && (!found || !streamOpened) ==>
                md == old(md) && frames == old(frames) && currAmps == old(currAmps)
      ensures var found := exists n :: 0 <= n < |old(amps)| && elNames[n] in ipRecv.values;
              ipRecv.name == which.Name() && found && streamOpened ==>
                md == old(md).(write := false, cnt0 := old(md).cnt0 + 1) &&
                frames == old(frames) + [Frame(DestinationSlot(old(md)), amps)] &&
                currAmps == amps
    {
      if ipRecv.name != which.Name() {
        return -1;
      }
      var found := SetAmps(ipRecv.values);
      if found {
        rv := SendCommand();
        return;
      }
      return 0;
    }

    /** The loop of the callback: every amplitude whose element name the
        update carries takes the value given for it. */
    method SetAmps(values: map<string, real>) returns (found: bool)
      requires Valid()
      modifies this`amps
      ensures Valid()
      ensures |amps| == |old(amps)|
      ensures forall n :: 0 <= n < |amps| ==>
                amps[n] == if elNames[n] in values then values[elNames[n]] else old(amps)[n]
      ensures found <==> exists n :: 0 <= n < |amps| && elNames[n] in values
    {
      found := false;
      var n := 0;
      while n < |amps|
        invariant 0 <= n <= |amps| && |amps| == |old(amps)|
        invariant forall i :: 0 <= i < n ==>
                    amps[i] == if elNames[i] in values then values[elNames[i]] else old(amps)[i]
        invariant forall i :: n <= i < |amps| ==> amps[i] == old(amps)[i]
        invariant found <==> exists i :: 0 <= i < n && elNames[i] in values
      {
        if elNames[n] in values {
          amps := amps[n := values[elNames[n]]];
          found := true;
        }
        assert (exists i :: 0 <= i < n + 1 && elNames[i] in values) <==>
               (exists i :: 0 <= i < n && elNames[i] in values) || elNames[n] in values;
        n := n + 1;
      }
    }
  }
}
