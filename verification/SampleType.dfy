/** The bounded sequence type behind the type interface. */
module SampleType {
  import opened Samples

  type Octet = x: int | 0 <= x < 256

  /** A PerftestType: metadata and the octet sequence with its buffer (the maximum) and length. */
  datatype Value = Value(kind: Kind, num: int, ts: nat, buffer: seq<Octet>, length: nat) {
    predicate Ok() { length <= |buffer| }

    function Payload(): seq<Octet>
      requires Ok()
    {
      buffer[..length]
    }

    function SampleSize(): int { length + OVERHEAD }
  }

  // ---- Argument checks -------------------------------------------------------------------

  /** type_validate_input; `dataLen` is an int32_t. */
  function ValidateInput(dataLen: int, maxPayload: nat): int {
    if dataLen >= OVERHEAD && dataLen - OVERHEAD <= maxPayload then 0 else -1
  }

  function DefaultSampleSize(configured: int, maxPayload: nat): int {
    if configured < OVERHEAD then OVERHEAD
    else if configured - OVERHEAD > maxPayload then OVERHEAD + maxPayload
    else configured
  }

  /** The default validates whatever was configured, and is the configured size when that does. */
  lemma DefaultAlwaysValidates(configured: int, maxPayload: nat)
    ensures ValidateInput(DefaultSampleSize(configured, maxPayload), maxPayload) == 0
    ensures ValidateInput(configured, maxPayload) == 0 <==> DefaultSampleSize(configured, maxPayload) == configured
    ensures forall size: int :: ValidateInput(size, maxPayload) == 0 ==>
      var d := DefaultSampleSize(configured, maxPayload);
      (if configured >= d then configured - d else d - configured) <= (if configured >= size then configured - size else size - configured)
  {
  }

  // ---- Specification of the setters ------------------------------------------------------

  /** What the sequence library answers: to growing a buffer, to setting a length, to asking for contiguous buffers. */
  datatype Library = Library(growOk: bool, lengthOk: bool, bufferOk: bool)

  /** The buffer after set_maximum, if the length needs one. */
  function Grown(buffer: seq<Octet>, length: nat): seq<Octet> {
    if length <= |buffer| then buffer else buffer + seq(length - |buffer|, _ => 0)
  }

  /** type_set_payload_length. */
  function SetPayloadLength(v: Value, length: nat, lib: Library): (Value, bool) {
    if length > |v.buffer| && !lib.growOk then (v, false)
    else
      var w := v.(buffer := Grown(v.buffer, length));
      if lib.lengthOk then (w.(length := length), true) else (w, false)
  }

  function Resized(v: Value, size: int, maxPayload: nat, lib: Library): (Value, bool) {
    if !SizeFits(size, maxPayload) then (v, false)
    else SetPayloadLength(v, size - OVERHEAD, lib)
  }

  function CopyMetadata(dst: Value, src: Value): Value {
    dst.(kind := src.kind, num := src.num, ts := src.ts)
  }

  function CopyForWrite(dst: Value, src: Value, lib: Library): (Value, bool)
    requires src.Ok()
  {
    var (sized, ok) := SetPayloadLength(CopyMetadata(dst, src), src.length, lib);
    if !ok then (sized, false)
    else if src.length == 0 then (sized, true)
    else if !lib.bufferOk then (sized, false)
    else (sized.(buffer := src.Payload() + sized.buffer[src.length..]), true)
  }

  // ---- What the setters guarantee --------------------------------------------------------

  /**
   * A size within range is reported back; one out of range changes nothing, one the library refuses
   * neither size nor payload.
   */
  lemma SizeRoundTrip(v: Value, size: int, maxPayload: nat, lib: Library)
    requires v.Ok()
    ensures var (v', ok) := Resized(v, size, maxPayload, lib);
            && (ok <==> SizeFits(size, maxPayload) && lib.lengthOk && (lib.growOk || size - OVERHEAD <= |v.buffer|))
            && v'.Ok()
            && (if ok then v'.SampleSize() == size else v'.length == v.length && v'.Payload() == v.Payload())
            && (!SizeFits(size, maxPayload) ==> v' == v)
            && v'.kind == v.kind && v'.num == v.num && v'.ts == v.ts
            && (forall i :: 0 <= i < v.length && i < v'.length ==> v'.buffer[i] == v.buffer[i])
  {
  }

  /** Each metadata setter is read back, in any order, and touches nothing else. */
  lemma MetadataRoundTrip(v: Value, kind: Kind, num: int, ts: nat, maxPayload: nat)
    ensures var w := Calls(v, [SetKind(kind), SetNumber(num), SetTimestamp(ts)], maxPayload);
            && w == Calls(v, [SetTimestamp(ts), SetNumber(num), SetKind(kind)], maxPayload)
            && w.kind == kind && w.num == num && w.ts == ts && w.buffer == v.buffer && w.length == v.length
  {
    ThreeCalls(v, SetKind(kind), SetNumber(num), SetTimestamp(ts), maxPayload);
    ThreeCalls(v, SetTimestamp(ts), SetNumber(num), SetKind(kind), maxPayload);
  }

  lemma ThreeCalls(v: Value, x: Call, y: Call, z: Call, maxPayload: nat)
    ensures Calls(v, [x, y, z], maxPayload) == Call1(Call1(Call1(v, x, maxPayload), y, maxPayload), z, maxPayload)
  {
    assert [x, y, z][..2] == [x, y] && [x, y][..1] == [x] && [x][..0] == [];
    assert Calls(v, [x], maxPayload) == Call1(Calls(v, [], maxPayload), x, maxPayload);
    assert Calls(v, [x, y], maxPayload) == Call1(Calls(v, [x], maxPayload), y, maxPayload);
  }

  /**
   * A copy that succeeds transfers metadata and payload. One that fails transfers the metadata; it keeps
   * the payload, or, where only the contiguous buffers are refused, cuts the old contents to the new length.
   */
  lemma CopyTransfers(dst: Value, src: Value, lib: Library)
    requires src.Ok() && dst.Ok()
    ensures var (dst', ok) := CopyForWrite(dst, src, lib);
            var resized := lib.lengthOk && (lib.growOk || src.length <= |dst.buffer|);
            && (ok <==> resized && (src.length == 0 || lib.bufferOk))
            && dst'.Ok()
            && dst'.kind == src.kind && dst'.num == src.num && dst'.ts == src.ts
            && dst'.Payload() == (if ok then src.Payload()
                                  else if resized then Grown(dst.buffer, src.length)[..src.length]
                                  else dst.Payload())
  {
  }

  datatype Call =
    | SetKind(kind: Kind)
    | SetNumber(num: int)
    | SetTimestamp(ts: nat)
    | SetSize(size: int, lib: Library)
    | CopyMeta(src: Value)
    | CopyWrite(src: Value, lib: Library)

  /** The sources of copies are samples of the same kind themselves. */
  ghost predicate Bounded(v: Value, maxPayload: nat) { v.Ok() && v.length <= maxPayload }

  ghost predicate Sourced(calls: seq<Call>, maxPayload: nat) {
    forall i :: 0 <= i < |calls| ==>
      (calls[i].CopyMeta? || calls[i].CopyWrite? ==> Bounded(calls[i].src, maxPayload))
  }

  function Call1(v: Value, call: Call, maxPayload: nat): Value {
    match call
    case SetKind(k) => v.(kind := k)
    case SetNumber(n) => v.(num := n)
    case SetTimestamp(t) => v.(ts := t)
    case SetSize(size, lib) => Resized(v, size, maxPayload, lib).0
    case CopyMeta(src) => CopyMetadata(v, src)
    case CopyWrite(src, lib) => if src.Ok() then CopyForWrite(v, src, lib).0 else v
  }

  function Calls(v: Value, calls: seq<Call>, maxPayload: nat): Value {
    if calls == [] then v else Call1(Calls(v, calls[..|calls| - 1], maxPayload), calls[|calls| - 1], maxPayload)
  }

  /** type_create: the buffer at its bound, the length at the maximum. */
  predicate Created(v: Value, maxPayload: nat) { |v.buffer| == maxPayload == v.length }

  /**
   * Over any sequence of calls from creation the payload stays within the bound and the buffer is never
   * reallocated.
   */
  lemma {:induction false} BoundHolds(v: Value, calls: seq<Call>, maxPayload: nat)
    requires Created(v, maxPayload) && Sourced(calls, maxPayload)
    ensures Bounded(Calls(v, calls, maxPayload), maxPayload)
    ensures |Calls(v, calls, maxPayload).buffer| == maxPayload
  {
    if calls != [] {
      BoundHolds(v, calls[..|calls| - 1], maxPayload);
    }
  }

  /** So for a sample from type_create the range check decides, whatever the allocator would do. */
  lemma CreatedAcceptsExactlyInRange(v: Value, calls: seq<Call>, maxPayload: nat, size: int, lib: Library)
    requires Created(v, maxPayload) && Sourced(calls, maxPayload)
    ensures var (w, ok) := Resized(Calls(v, calls, maxPayload), size, maxPayload, lib);
            && (ok <==> ValidateInput(size, maxPayload) == 0 && lib.lengthOk)
            && (ok ==> w.SampleSize() == size)
            && (!ok ==> w == Calls(v, calls, maxPayload))
  {
    BoundHolds(v, calls, maxPayload);
  }

  // ---- The sample object -----------------------------------------------------------------

  class PerftestSample {
    var kind: Kind
    var sequenceNumber: int
    var timestampUs: nat
    var binData: array<Octet>
    var length: nat

    ghost predicate Valid()
      reads this
    {
      length <= binData.Length
    }

    ghost function View(): Value
      reads this, binData
    {
      Value(kind, sequenceNumber, timestampUs, binData[..], length)
    }

    constructor (maxPayload: nat)
      ensures Valid() && fresh(binData)
      ensures binData.Length == maxPayload == length
    {
      kind, sequenceNumber, timestampUs := Data, 0, 0;
      binData := new Octet[maxPayload](_ => 0);
      length := maxPayload;
    }

    method Initialize()
      modifies this`kind, this`sequenceNumber, this`timestampUs
      ensures View() == old(View()).(kind := Data, num := 0, ts := 0)
    {
      kind, sequenceNumber, timestampUs := Data, 0, 0;
    }

    method SetLength(n: nat, lib: Library) returns (rc: int)
      requires Valid()
      modifies this`binData, this`length
      ensures Valid() && (binData == old(binData) || fresh(binData))
      ensures var (v, ok) := SetPayloadLength(old(View()), n, lib);
              View() == v && rc == if ok then 0 else -1
    {
      if n > binData.Length {
        if !lib.growOk {
          return -1;
        }
        var grown := new Octet[n](i requires 0 <= i reads this, binData => if i < binData.Length then binData[i] else 0);
        binData := grown;
      }
      if !lib.lengthOk {
        return -1;
      }
      length := n;
      rc := 0;
    }

    method SetSampleSize(size: int, maxPayload: nat, lib: Library) returns (rc: int)
      requires Valid()
      modifies this`binData, this`length
      ensures Valid() && (binData == old(binData) || fresh(binData))
      ensures var (v, ok) := Resized(old(View()), size, maxPayload, lib);
              View() == v && rc == if ok then 0 else -1
    {
      if size < OVERHEAD || size - OVERHEAD > maxPayload {
        return -1;
      }
      rc := SetLength(size - OVERHEAD, lib);
    }

    method CopyMetadataFrom(src: PerftestSample)
      modifies this`kind, this`sequenceNumber, this`timestampUs
      ensures View() == CopyMetadata(old(View()), old(src.View()))
    {
      kind, sequenceNumber, timestampUs := src.kind, src.sequenceNumber, src.timestampUs;
    }

    method CopyForWriteFrom(src: PerftestSample, lib: Library) returns (rc: int)
      requires Valid() && src.Valid() && src != this && src.binData != binData
      modifies this, binData
      ensures Valid()
      ensures var (v, ok) := CopyForWrite(old(View()), src.View(), lib);
              View() == v && rc == if ok then 0 else -1
      ensures src.View() == old(src.View())
    {
      CopyMetadataFrom(src);
      rc := SetLength(src.length, lib);
      if rc != 0 || src.length == 0 {
        return;
      }
      if !lib.bufferOk {
        return -1;
      }
      ghost var sized := View();
      var target := binData;
      for i := 0 to src.length
        invariant binData == target && binData.Length == |sized.buffer| && length == src.length <= binData.Length
        invariant kind == sized.kind && sequenceNumber == sized.num && timestampUs == sized.ts
        invariant forall j :: 0 <= j < i ==> target[j] == src.binData[j]
        invariant forall j :: i <= j < target.Length ==> target[j] == sized.buffer[j]
        invariant src.View() == old(src.View())
      {
        target[i] := src.binData[i];
      }
      assert target[..] == src.View().Payload() + sized.buffer[src.length..];
    }
  }

  /** type_create with its three library calls, any of which may fail. */
  method Create(maxPayload: nat, createOk: bool, maximumOk: bool, lengthOk: bool) returns (s: PerftestSample?)
    ensures s != null <==> createOk && maximumOk && lengthOk
    ensures s != null ==> fresh(s) && fresh(s.binData) && s.Valid() && Created(s.View(), maxPayload)
    ensures s != null ==> s.View().SampleSize() == OVERHEAD + maxPayload
  {
    if !createOk || !maximumOk || !lengthOk {
      return null;
    }
    s := new PerftestSample(maxPayload);
  }
}
