/**
 The Galileo E1 PCPS 8 ms ambiguous acquisition adapter: the object that a
 receiver channel configures before the parallel-code-phase search block
 runs. It reads its settings from the configuration, keeps the Doppler
 search parameters and the detection threshold, tiles one code epoch into
 the local replica buffer, and forwards each setting to the search block.

 The search block itself is represented only by the parameters it was
 created with and the log of calls the adapter makes on it.
 */
module GalileoE1Pcps8msAcquisition {
  import opened Configuration
  import opened AcquisitionSpec

  datatype Option<T> = None | Some(value: T)

  /** One complex baseband sample. */
  datatype Complex = Complex(re: real, im: real)

  /** The only item type for which the adapter creates a search block. */
  const ComplexItemType: string := "gr_complex"
  /** sizeof(gr_complex): two single-precision floats. */
  const ComplexItemSize: nat := 8
  const DefaultDumpFilename: string := "../data/acquisition.dat"
  const DefaultFsIn: nat := 4000000
  const DefaultDopplerMax: nat := 5000
  const DefaultIntegrationMs: nat := 4
  const DefaultMaxDwells: nat := 1

  /** The part of the channel's synchronisation record the adapter reads:
      the two signal-name characters and the satellite PRN. */
  datatype GnssSynchro = GnssSynchro(signal0: char, signal1: char, prn: nat)

  /** The arguments handed to the Galileo E1 code generator. */
  datatype ReplicaRequest = ReplicaRequest(
    signal: string, cboc: bool, prn: nat, fsIn: nat, chipShift: nat, secondaryCode: bool)

  /** The arguments the PCPS 8 ms search block is created with. */
  datatype BlockParams = BlockParams(
    sampledMs: nat, maxDwells: nat, dopplerMax: nat, fsIn: nat,
    samplesPerMs: nat, codeLength: nat, dump: bool, dumpFilename: string)

  /** A call the adapter makes on the search block. */
  datatype BlockCall =
    | SetThresholdCall(threshold: real)
    | SetDopplerMaxCall(dopplerMax: nat)
    | SetDopplerStepCall(dopplerStep: nat)
    | SetGnssSynchroCall(synchro: GnssSynchro)
    | SetLocalCodeCall(code: seq<Complex>)
    | SetActiveCall(active: bool)
    | InitCall

  /** Copies all of `src` into `dst` starting at `offset`, leaving the rest
      of `dst` as it was (std::copy_n into a sub-span). */
  method CopyN<T>(src: seq<T>, dst: array<T>, offset: nat)
    requires offset + |src| <= dst.Length
    modifies dst
    ensures dst[..] == old(dst[..offset]) + src + old(dst[offset + |src|..])
  {
    var j := 0;
    while j < |src|
      invariant 0 <= j <= |src|
      invariant dst[..] == old(dst[..offset]) + src[..j] + old(dst[offset + j..])
    {
      dst[offset + j] := src[j];
      j := j + 1;
    }
  }

  /** Fills `dst` with `periods` back-to-back copies of `epoch`. */
  method TileInto<T>(epoch: seq<T>, periods: nat, dst: array<T>)
    requires dst.Length == |epoch| * periods
    modifies dst
    ensures dst[..] == Tile(epoch, periods)
  {
    var n := |epoch|;
    var i := 0;
    while i < periods
      invariant 0 <= i <= periods
      invariant i * n <= dst.Length
      invariant dst[..i * n] == Tile(epoch, i)
    {
      MulMono(i + 1, periods, n);
      assert (i + 1) * n == i * n + n;
      ghost var done := dst[..i * n];
      CopyN(epoch, dst, i * n);
      assert dst[..(i + 1) * n] == done + epoch;
      i := i + 1;
    }
    assert dst[..] == dst[..periods * n];
  }

  class Adapter {
    const config: Config
    const role: string
    const inStreams: nat
    const outStreams: nat
    const itemType: string
    const itemSize: nat
    const fsIn: nat
    const dump: bool
    const dumpFilename: string
    const sampledMs: nat
    const maxDwells: nat
    /** Samples per 4 ms code period. */
    const codeLength: nat
    /** Samples per coherent integration window. */
    const vectorLength: nat
    /** The local replica: the code epoch tiled over the integration window. */
    const code: array<Complex>
    /** The search block, present only for the complex item type. */
    const block: Option<BlockParams>
    /** The detection threshold for a false-alarm probability, a number of
        search cells and a vector length (the exponential-quantile formula). */
    const thresholdOf: (real, nat, nat) -> real
    /** The Galileo E1 code generator: one epoch of the sampled code. */
    const codeGen: ReplicaRequest -> seq<Complex>

    var dopplerMax: nat
    var dopplerStep: nat
    var threshold: real
    var channel: nat
    var gnssSynchro: Option<GnssSynchro>
    /** Every call made on the search block so far, oldest first. */
    var forwarded: seq<BlockCall>

    ghost predicate Valid()
    {
      && sampledMs % CodePeriodMs == 0
      && vectorLength == codeLength * (sampledMs / CodePeriodMs)
      && code.Length == vectorLength
      && (block.Some? <==> itemType == ComplexItemType)
      && itemSize == ComplexItemSize
      && (forall r :: |codeGen(r)| == codeLength)
    }

    /** The calls forwarded for one operation: the call itself when the
        search block exists, nothing otherwise. */
    function Forward(call: BlockCall): (calls: seq<BlockCall>)
      ensures itemType == ComplexItemType ==> calls == [call]
      ensures itemType != ComplexItemType ==> calls == []
    {
      if itemType == ComplexItemType then [call] else []
    }

    constructor (config: Config, role: string, inStreams: nat, outStreams: nat,
                 flagDopplerMax: nat, codeLength: nat,
                 thresholdOf: (real, nat, nat) -> real,
                 codeGen: ReplicaRequest -> seq<Complex>)
      requires forall r :: |codeGen(r)| == codeLength
      ensures Valid()
      ensures this.config == config && this.role == role
      ensures this.inStreams == inStreams && this.outStreams == outStreams
      ensures this.thresholdOf == thresholdOf && this.codeGen == codeGen
      ensures itemType == TextProperty(config, role + ".item_type", ComplexItemType)
      ensures itemSize == ComplexItemSize
      ensures fsIn == NatProperty(config, "GNSS-SDR.internal_fs_sps",
                                  NatProperty(config, "GNSS-SDR.internal_fs_hz", DefaultFsIn))
      ensures dump == BoolProperty(config, role + ".dump", false)
      ensures dopplerMax == EffectiveDopplerMax(
                NatProperty(config, role + ".doppler_max", DefaultDopplerMax), flagDopplerMax)
      ensures sampledMs == TruncateToCodePeriod(
                NatProperty(config, role + ".coherent_integration_time_ms", DefaultIntegrationMs))
      ensures maxDwells == NatProperty(config, role + ".max_dwells", DefaultMaxDwells)
      ensures dumpFilename == TextProperty(config, role + ".dump_filename", DefaultDumpFilename)
      ensures this.codeLength == codeLength
      ensures vectorLength == codeLength * (sampledMs / CodePeriodMs)
      ensures fresh(code) && code.Length == vectorLength
      ensures forall k :: 0 <= k < code.Length ==> code[k] == Complex(0.0, 0.0)
      ensures block == if itemType == ComplexItemType
                       then Some(BlockParams(sampledMs, maxDwells, dopplerMax, fsIn,
                                             codeLength / 4, codeLength, dump, dumpFilename))
                       else None
      ensures channel == 0 && threshold == 0.0 && dopplerStep == 0
      ensures gnssSynchro == None && forwarded == []
    {
      this.config := config;
      this.role := role;
      this.inStreams := inStreams;
      this.outStreams := outStreams;
      this.thresholdOf := thresholdOf;
      this.codeGen := codeGen;
      itemType := TextProperty(config, role + ".item_type", ComplexItemType);
      var fsInDeprecated := NatProperty(config, "GNSS-SDR.internal_fs_hz", DefaultFsIn);
      fsIn := NatProperty(config, "GNSS-SDR.internal_fs_sps", fsInDeprecated);
      dump := BoolProperty(config, role + ".dump", false);
      var configuredDopplerMax := NatProperty(config, role + ".doppler_max", DefaultDopplerMax);
      dopplerMax := EffectiveDopplerMax(configuredDopplerMax, flagDopplerMax);
      var configuredMs := NatProperty(config, role + ".coherent_integration_time_ms", DefaultIntegrationMs);
      var ms := TruncateToCodePeriod(configuredMs);
      sampledMs := ms;
      var dwells := NatProperty(config, role + ".max_dwells", DefaultMaxDwells);
      maxDwells := dwells;
      dumpFilename := TextProperty(config, role + ".dump_filename", DefaultDumpFilename);
      this.codeLength := codeLength;
      var n := codeLength * (ms / CodePeriodMs);
      vectorLength := n;
      code := new Complex[n](_ => Complex(0.0, 0.0));
      itemSize := ComplexItemSize;
      if TextProperty(config, role + ".item_type", ComplexItemType) == ComplexItemType {
        block := Some(BlockParams(ms, dwells, EffectiveDopplerMax(configuredDopplerMax, flagDopplerMax),
                                  NatProperty(config, "GNSS-SDR.internal_fs_sps", fsInDeprecated),
                                  codeLength / 4, codeLength, BoolProperty(config, role + ".dump", false),
                                  TextProperty(config, role + ".dump_filename", DefaultDumpFilename)));
      } else {
        block := None;
      }
      channel := 0;
      threshold := 0.0;
      dopplerStep := 0;
      gnssSynchro := None;
      forwarded := [];
    }

    /** The false-alarm probability configured for this channel: the
        per-channel property, else the role-wide one, zero when neither. */
    function ConfiguredPfa(): (pfa: real)
      reads this
      ensures var channelPfa := RealProperty(config, role + NatToString(channel) + ".pfa", 0.0);
              var rolePfa := RealProperty(config, role + ".pfa", 0.0);
              && (channelPfa != 0.0 ==> pfa == channelPfa)
              && (channelPfa == 0.0 ==> pfa == rolePfa)
              && (pfa == 0.0 <==> channelPfa == 0.0 && rolePfa == 0.0)
    {
      var channelPfa := RealProperty(config, role + NatToString(channel) + ".pfa", 0.0);
      if channelPfa == 0.0 then RealProperty(config, role + ".pfa", 0.0) else channelPfa
    }

    /** Counts the Doppler bins of the search grid and derives the threshold
        from the false-alarm probability over vectorLength * bins cells.
        A zero Doppler step would make the counting loop run forever, and a
        zero vector length makes the exponential distribution reject its rate. */
    method CalculateThreshold(pfa: real) returns (t: real)
      requires dopplerStep > 0 && vectorLength > 0
      ensures t == thresholdOf(pfa, vectorLength * (2 * dopplerMax / dopplerStep + 1), vectorLength)
    {
      var frequencyBins: nat := 0;
      var doppler: int := -(dopplerMax as int);
      while doppler <= dopplerMax
        invariant frequencyBins + |GridFrom(doppler, dopplerMax, dopplerStep)|
                  == |DopplerGrid(dopplerMax, dopplerStep)|
        decreases dopplerMax - doppler
      {
        frequencyBins := frequencyBins + 1;
        doppler := doppler + dopplerStep;
      }
      DopplerGridLength(dopplerMax, dopplerStep);
      var ncells := vectorLength * frequencyBins;
      t := thresholdOf(pfa, ncells, vectorLength);
    }

    /** Stores the caller's threshold when no false-alarm probability is
        configured, else the one derived from it, and forwards it. */
    method SetThreshold(explicit: real)
      requires ConfiguredPfa() == 0.0 || (dopplerStep > 0 && vectorLength > 0)
      modifies this`threshold, this`forwarded
      ensures ConfiguredPfa() == 0.0 ==> threshold == explicit
      ensures ConfiguredPfa() != 0.0 ==>
        threshold == thresholdOf(ConfiguredPfa(), vectorLength * FrequencyBins(dopplerMax, dopplerStep),
                                 vectorLength)
      ensures forwarded == old(forwarded) + Forward(SetThresholdCall(threshold))
    {
      var pfa := RealProperty(config, role + NatToString(channel) + ".pfa", 0.0);
      if pfa == 0.0 {
        pfa := RealProperty(config, role + ".pfa", 0.0);
      }
      if pfa == 0.0 {
        threshold := explicit;
      } else {
        threshold := CalculateThreshold(pfa);
      }
      if itemType == ComplexItemType {
        forwarded := forwarded + [SetThresholdCall(threshold)];
      }
    }

    method SetDopplerMax(newDopplerMax: nat)
      modifies this`dopplerMax, this`forwarded
      ensures dopplerMax == newDopplerMax
      ensures forwarded == old(forwarded) + Forward(SetDopplerMaxCall(newDopplerMax))
    {
      dopplerMax := newDopplerMax;
      if itemType == ComplexItemType {
        forwarded := forwarded + [SetDopplerMaxCall(dopplerMax)];
      }
    }

    method SetDopplerStep(newDopplerStep: nat)
      modifies this`dopplerStep, this`forwarded
      ensures dopplerStep == newDopplerStep
      ensures forwarded == old(forwarded) + Forward(SetDopplerStepCall(newDopplerStep))
    {
      dopplerStep := newDopplerStep;
      if itemType == ComplexItemType {
        forwarded := forwarded + [SetDopplerStepCall(dopplerStep)];
      }
    }

    method SetGnssSynchro(synchro: GnssSynchro)
      modifies this`gnssSynchro, this`forwarded
      ensures gnssSynchro == Some(synchro)
      ensures forwarded == old(forwarded) + Forward(SetGnssSynchroCall(synchro))
    {
      gnssSynchro := Some(synchro);
      if itemType == ComplexItemType {
        forwarded := forwarded + [SetGnssSynchroCall(synchro)];
      }
    }

    /** The peak magnitude reported by the search block (`blockMag`), or 0
        when there is no search block. */
    method Mag(blockMag: int) returns (m: int)
      ensures itemType != ComplexItemType ==> m == 0
      ensures itemType == ComplexItemType ==> m == blockMag
    {
      if itemType == ComplexItemType {
        return blockMag;
      }
      return 0;
    }

    /** Initialises the search block; the block is used without checking the
        item type, so it must exist. */
    method Init()
      requires block.Some?
      modifies this`forwarded
      ensures forwarded == old(forwarded) + [InitCall]
    {
      forwarded := forwarded + [InitCall];
    }

    /** The code-generator arguments for the current synchronisation record:
        its signal name, the channel's CBOC flag, its PRN and the sampling
        rate, with no chip shift and no secondary code. */
    function LocalCodeRequest(): (req: ReplicaRequest)
      reads this
      requires gnssSynchro.Some?
      ensures req.prn == gnssSynchro.value.prn && req.fsIn == fsIn
      ensures req.signal == [gnssSynchro.value.signal0, gnssSynchro.value.signal1, '\0']
      ensures req.cboc == BoolProperty(config, "Acquisition" + NatToString(channel) + ".cboc", false)
      ensures req.chipShift == 0 && !req.secondaryCode
    {
      var s := gnssSynchro.value;
      ReplicaRequest([s.signal0, s.signal1, '\0'],
                     BoolProperty(config, "Acquisition" + NatToString(channel) + ".cboc", false),
                     s.prn, fsIn, 0, false)
    }

    /** Generates one code epoch and copies it sampledMs / 4 times, back to
        back, into the replica buffer, then hands the buffer to the block. */
    method SetLocalCode()
      requires Valid()
      requires itemType == ComplexItemType ==> gnssSynchro.Some?
      modifies code, this`forwarded
      ensures itemType != ComplexItemType ==> unchanged(code) && forwarded == old(forwarded)
      ensures itemType == ComplexItemType ==>
        && code[..] == Tile(codeGen(LocalCodeRequest()), sampledMs / CodePeriodMs)
        && forwarded == old(forwarded) + [SetLocalCodeCall(code[..])]
    {
      if itemType == ComplexItemType {
        var epoch := codeGen(LocalCodeRequest());
        TileInto(epoch, sampledMs / CodePeriodMs, code);
        forwarded := forwarded + [SetLocalCodeCall(code[..])];
      }
    }

    /** Re-activates the search block for a new acquisition attempt. */
    method Reset()
      modifies this`forwarded
      ensures forwarded == old(forwarded) + Forward(SetActiveCall(true))
    {
      if itemType == ComplexItemType {
        forwarded := forwarded + [SetActiveCall(true)];
      }
    }
  }
}
