# Galileo E1 PCPS 8 ms acquisition adapter, modelled in Dafny

GNSS-SDR is a software-defined GNSS receiver. Before a channel can search for
a Galileo E1 satellite, the adapter `GalileoE1Pcps8msAmbiguousAcquisition`
sets up the parallel-code-phase-search (PCPS) block. This project models that
adapter's configuration and bookkeeping:

- **Setup.** The constructor reads the item type, sampling rate, dump
  settings, Doppler radius, coherent integration time and dwell count from the
  configuration. A non-zero `--doppler_max` command-line value overrides the
  configured radius. The integration time is rounded down to whole 4 ms
  Galileo code periods. The replica length is
  `vector_length = code_length * (sampled_ms / 4)`, and the zeroed replica
  buffer has exactly that many samples. The search block exists only for the
  `gr_complex` item type.
- **Threshold.** A per-channel false-alarm probability (`<role><channel>.pfa`)
  takes precedence over the role-wide one (`<role>.pfa`). When both are zero,
  the caller's threshold is stored unchanged. Otherwise the threshold is derived
  from the probability over `vector_length * frequency_bins` search cells.
  `frequency_bins` is counted by a loop over the Doppler grid from
  `-doppler_max` to `+doppler_max` in steps of `doppler_step`. The model proves
  that this count is `2 * doppler_max / doppler_step + 1`. It also proves that
  with a zero step the loop never exits. The constructor leaves the step at
  zero, so the threshold path requires `doppler_step > 0` whenever a
  probability is configured. It also requires `vector_length > 0`: an
  integration time below 4 ms truncates to 0, and the exponential
  distribution then rejects its zero rate. The other ways the threshold formula
  can fail (see "## Left out") are not modelled.
- **Replica.** `set_local_code` asks the Galileo E1 code generator for one
  epoch of `code_length` samples. It copies that epoch `sampled_ms / 4` times,
  back to back, into the replica buffer. Sample `j` of period `i` lands at
  `i * code_length + j`, and every buffer position is covered exactly once.
- **Forwarding.** Each setter stores its value and forwards it to the search
  block. The block is present only for `gr_complex`. It is modelled by the
  parameters it was created with and by the log `forwarded` of calls made on
  it. For any other item type, nothing is forwarded and `mag()` returns 0.

Files:

- `configuration.dfy` (module `Configuration`): the configuration as a map
  of already-parsed values, with property lookups that fall back to defaults.
- `acquisition_spec.dfy` (module `AcquisitionSpec`): the pure arithmetic. It
  covers the integration-time truncation, the Doppler override, the Doppler
  grid with its closed-form size, the bin loop as a state machine, and replica
  tiling.
- `galileo_e1_pcps_8ms_acquisition.dfy` (module `GalileoE1Pcps8msAcquisition`):
  the adapter as the class `Adapter`, with the in-place copy and tiling loops.

Two things the adapter calls out to are not part of this model. They are
fields of the class, given to its constructor as function values:

- `thresholdOf(pfa, ncells, vector_length)` stands for the floating-point
  threshold formula (lines 253-257).
- `codeGen(request)` stands for the Galileo E1 code generator.

## Model

| member | source | states |
|---|---|---|
| `AcquisitionSpec.TruncateToCodePeriod` | src/algorithms/acquisition/adapters/galileo_e1_pcps_8ms_ambiguous_acquisition.cc:67-75 | the integration time used is a multiple of 4 ms, at most the configured time and less than 4 ms below it, and equal to it when it already was a multiple of 4 |
| `AcquisitionSpec.TruncationIsFloor` | src/algorithms/acquisition/adapters/galileo_e1_pcps_8ms_ambiguous_acquisition.cc:69-75 | the truncated time is the largest multiple of 4 not above the configured time, and truncating twice changes nothing |
| `AcquisitionSpec.EffectiveDopplerMax` | src/algorithms/acquisition/adapters/galileo_e1_pcps_8ms_ambiguous_acquisition.cc:62-66 | a non-zero command-line Doppler maximum replaces the configured one; a zero flag leaves the configured value |
| `AcquisitionSpec.GridFrom` | src/algorithms/acquisition/adapters/galileo_e1_pcps_8ms_ambiguous_acquisition.cc:245-248 | the bins the loop visits from a starting Doppler value: none exactly when the start is already above the radius, otherwise starting at that value and never below it |
| `AcquisitionSpec.FrequencyBins` | src/algorithms/acquisition/adapters/galileo_e1_pcps_8ms_ambiguous_acquisition.cc:244-248 | the closed-form bin count `2 * doppler_max / doppler_step + 1`, at least one bin |
| `AcquisitionSpec.GridFromLength` | src/algorithms/acquisition/adapters/galileo_e1_pcps_8ms_ambiguous_acquisition.cc:245-248 | counting from a Doppler value `d` up to the radius visits `(doppler_max - d) / step + 1` bins, or none when `d` is already above the radius |
| `AcquisitionSpec.DopplerGridLength` | src/algorithms/acquisition/adapters/galileo_e1_pcps_8ms_ambiguous_acquisition.cc:244-248 | the Doppler grid from `-doppler_max` to `+doppler_max` has `2 * doppler_max / doppler_step + 1` bins |
| `AcquisitionSpec.GridFromAt` | src/algorithms/acquisition/adapters/galileo_e1_pcps_8ms_ambiguous_acquisition.cc:245 | the k-th value visited from `d` is `d + k * step` and is not above the radius |
| `AcquisitionSpec.DopplerGridBins` | src/algorithms/acquisition/adapters/galileo_e1_pcps_8ms_ambiguous_acquisition.cc:245-248 | bin k is `-doppler_max + k * step` and lies in `[-doppler_max, doppler_max]`; one more step after the last bin leaves the grid |
| `AcquisitionSpec.FortyOneBins` | src/algorithms/acquisition/adapters/galileo_e1_pcps_8ms_ambiguous_acquisition.cc:244-248 | a 5000 Hz radius in 250 Hz steps gives 41 bins |
| `AcquisitionSpec.BinStep` | src/algorithms/acquisition/adapters/galileo_e1_pcps_8ms_ambiguous_acquisition.cc:245-247 | one iteration of the loop body counts exactly one more bin |
| `AcquisitionSpec.Iterate` | src/algorithms/acquisition/adapters/galileo_e1_pcps_8ms_ambiguous_acquisition.cc:245-247 | after k iterations of the loop body k more bins are counted and the Doppler value has not decreased |
| `AcquisitionSpec.IterateAdvances` | src/algorithms/acquisition/adapters/galileo_e1_pcps_8ms_ambiguous_acquisition.cc:245-248 | after k iterations of the bin loop the Doppler value has advanced by `k * step` and k bins have been counted |
| `AcquisitionSpec.BinLoopExits` | src/algorithms/acquisition/adapters/galileo_e1_pcps_8ms_ambiguous_acquisition.cc:244-248 | with a positive step, the loop guard holds after k iterations exactly when `k < 2 * doppler_max / step + 1`, so the loop stops with that count |
| `AcquisitionSpec.IterateVisitsGrid` | src/algorithms/acquisition/adapters/galileo_e1_pcps_8ms_ambiguous_acquisition.cc:245-248 | with a positive step, the loop's Doppler value after k iterations is the k-th bin of the grid, for every bin it counts |
| `AcquisitionSpec.ZeroStepNeverExits` | src/algorithms/acquisition/adapters/galileo_e1_pcps_8ms_ambiguous_acquisition.cc:245-248 | with the constructor's zero step (line 112) the loop guard still holds after any number of iterations: the loop never terminates |
| `AcquisitionSpec.ZeroStepStays` | src/algorithms/acquisition/adapters/galileo_e1_pcps_8ms_ambiguous_acquisition.cc:245-247 | with a zero step the Doppler value never moves while the bin count grows by one per iteration |
| `AcquisitionSpec.Tile` | src/algorithms/acquisition/adapters/galileo_e1_pcps_8ms_ambiguous_acquisition.cc:223-226 | the tiled replica of at least one period starts with one full epoch |
| `AcquisitionSpec.TileLength` | src/algorithms/acquisition/adapters/galileo_e1_pcps_8ms_ambiguous_acquisition.cc:222-226 | tiling `periods` copies of an epoch gives `periods * code_length` samples |
| `AcquisitionSpec.TileAt` | src/algorithms/acquisition/adapters/galileo_e1_pcps_8ms_ambiguous_acquisition.cc:223-226 | for `i < periods` and `j < code_length`, replica sample `i * code_length + j` is epoch sample `j` |
| `AcquisitionSpec.TileIndex` | src/algorithms/acquisition/adapters/galileo_e1_pcps_8ms_ambiguous_acquisition.cc:222-226 | every replica position k belongs to exactly one period `k / code_length < periods` and holds epoch sample `k % code_length` |
| `Configuration.NatProperty` | src/algorithms/acquisition/adapters/galileo_e1_pcps_8ms_ambiguous_acquisition.cc:59-62 | an integer property is the configured value when present, else the default |
| `Configuration.RealProperty` | src/algorithms/acquisition/adapters/galileo_e1_pcps_8ms_ambiguous_acquisition.cc:133-137 | a real property is the configured value when present, else the default |
| `Configuration.BoolProperty` | src/algorithms/acquisition/adapters/galileo_e1_pcps_8ms_ambiguous_acquisition.cc:210-211 | a boolean property is the configured value when present, else the default |
| `Configuration.TextProperty` | src/algorithms/acquisition/adapters/galileo_e1_pcps_8ms_ambiguous_acquisition.cc:56-57 | a text property is the configured value when present, else the default |
| `Configuration.NatToString` | src/algorithms/acquisition/adapters/galileo_e1_pcps_8ms_ambiguous_acquisition.cc:133 | the channel number is rendered as a non-empty string of decimal digits |
| `Configuration.NatToStringRoundTrip` | src/algorithms/acquisition/adapters/galileo_e1_pcps_8ms_ambiguous_acquisition.cc:133 | reading the rendered digits back as a decimal number gives the channel number itself |
| `Configuration.NatToStringInjective` | src/algorithms/acquisition/adapters/galileo_e1_pcps_8ms_ambiguous_acquisition.cc:133 | distinct channel numbers render to distinct strings, so each channel looks up its own `.pfa` and `.cboc` keys |
| `GalileoE1Pcps8msAcquisition.CopyN` | src/algorithms/acquisition/adapters/galileo_e1_pcps_8ms_ambiguous_acquisition.cc:225 | copying an epoch into the buffer at an offset puts it at that offset and leaves every other sample as it was |
| `GalileoE1Pcps8msAcquisition.TileInto` | src/algorithms/acquisition/adapters/galileo_e1_pcps_8ms_ambiguous_acquisition.cc:222-226 | after the copy loop the buffer holds exactly `periods` back-to-back copies of the epoch |
| `GalileoE1Pcps8msAcquisition.Adapter.constructor` | src/algorithms/acquisition/adapters/galileo_e1_pcps_8ms_ambiguous_acquisition.cc:42-123 | every setting is the configured value or its default; the Doppler flag overrides when non-zero; `sampled_ms` is truncated to 4 ms periods; `vector_length = code_length * (sampled_ms / 4)`; the fresh zeroed buffer has `vector_length` samples; the code generator is taken to return `code_length` samples; the search block is created, with its parameters, only for `gr_complex`; channel 0, threshold 0, Doppler step 0, no synchro record |
| `GalileoE1Pcps8msAcquisition.Adapter.Forward` | src/algorithms/acquisition/adapters/galileo_e1_pcps_8ms_ambiguous_acquisition.cc:151-154 | a call reaches the search block exactly when the item type is `gr_complex` |
| `GalileoE1Pcps8msAcquisition.Adapter.ConfiguredPfa` | src/algorithms/acquisition/adapters/galileo_e1_pcps_8ms_ambiguous_acquisition.cc:133-138 | the per-channel false-alarm probability wins when non-zero, else the role-wide one; the result is zero exactly when both are zero |
| `GalileoE1Pcps8msAcquisition.Adapter.CalculateThreshold` | src/algorithms/acquisition/adapters/galileo_e1_pcps_8ms_ambiguous_acquisition.cc:242-260 | for a positive Doppler step and a non-zero vector length the counting loop terminates, and the threshold is the formula's value over `vector_length * (2 * doppler_max / doppler_step + 1)` cells |
| `GalileoE1Pcps8msAcquisition.Adapter.SetThreshold` | src/algorithms/acquisition/adapters/galileo_e1_pcps_8ms_ambiguous_acquisition.cc:131-155 | with no probability configured the argument is stored exactly; otherwise the derived threshold is stored, which needs a positive step and a non-zero vector length; the stored value is forwarded only for `gr_complex`; nothing else changes |
| `GalileoE1Pcps8msAcquisition.Adapter.SetDopplerMax` | src/algorithms/acquisition/adapters/galileo_e1_pcps_8ms_ambiguous_acquisition.cc:158-166 | the Doppler maximum becomes the argument and is forwarded only for `gr_complex`; no other field changes |
| `GalileoE1Pcps8msAcquisition.Adapter.SetDopplerStep` | src/algorithms/acquisition/adapters/galileo_e1_pcps_8ms_ambiguous_acquisition.cc:169-176 | the Doppler step becomes the argument and is forwarded only for `gr_complex`; no other field changes |
| `GalileoE1Pcps8msAcquisition.Adapter.SetGnssSynchro` | src/algorithms/acquisition/adapters/galileo_e1_pcps_8ms_ambiguous_acquisition.cc:179-187 | the synchronisation record is stored and forwarded only for `gr_complex` |
| `GalileoE1Pcps8msAcquisition.Adapter.Mag` | src/algorithms/acquisition/adapters/galileo_e1_pcps_8ms_ambiguous_acquisition.cc:190-197 | the result is 0 whenever the item type is not `gr_complex`, and the block's magnitude otherwise |
| `GalileoE1Pcps8msAcquisition.Adapter.Init` | src/algorithms/acquisition/adapters/galileo_e1_pcps_8ms_ambiguous_acquisition.cc:200-203 | the block is initialised with no item-type check, so the block must exist |
| `GalileoE1Pcps8msAcquisition.Adapter.LocalCodeRequest` | src/algorithms/acquisition/adapters/galileo_e1_pcps_8ms_ambiguous_acquisition.cc:210-220 | the generator gets the record's two signal characters plus a terminator, the channel's CBOC flag (default false), the PRN, the sampling rate, no chip shift and no secondary code |
| `GalileoE1Pcps8msAcquisition.Adapter.SetLocalCode` | src/algorithms/acquisition/adapters/galileo_e1_pcps_8ms_ambiguous_acquisition.cc:206-230 | for `gr_complex` the buffer becomes `sampled_ms / 4` copies of the generated epoch and is handed to the block; for any other item type neither the buffer nor the block is touched |
| `GalileoE1Pcps8msAcquisition.Adapter.Reset` | src/algorithms/acquisition/adapters/galileo_e1_pcps_8ms_ambiguous_acquisition.cc:233-239 | the block is re-activated only for `gr_complex`; nothing else changes |

## Left out

- GalileoE1Pcps8msAcquisition.Adapter.CalculateThreshold: the floating-point formula (`pow(1 - pfa, 1 / ncells)` and the exponential-distribution quantile, lines 253-257) is not modelled. The model keeps it as the function value `thresholdOf(pfa, ncells, vector_length)`.
- GalileoE1Pcps8msAcquisition.Adapter.CalculateThreshold: the 32-bit unsigned arithmetic of `doppler`, `frequency_bins` and `ncells` is not modelled. Integers are unbounded, so the model does not capture wrap-around when `doppler_max + doppler_step` exceeds 2^31 - 1 or when `ncells` exceeds 2^32 - 1.
- GalileoE1Pcps8msAcquisition.Adapter.constructor: `vector_length = code_length * (sampled_ms / 4)` (line 86) is computed in 32-bit unsigned arithmetic and wraps once the product exceeds 2^32 - 1, and the buffer allocated at line 90 then has the wrapped size. The model's integers are unbounded, so it does not capture that wrap.
- GalileoE1Pcps8msAcquisition.Adapter.CalculateThreshold: the quantile at line 257 also throws for a false-alarm probability below 0 or above 1 (the per-cell probability is then above 1 or not a number), and for a non-zero probability so small that `1.0 - pfa` rounds to 1.0 (the per-cell probability is then exactly 1). In those cases `set_threshold` throws. These exceptions are not modelled: `thresholdOf` is a total function, so the model stores its value and returns normally. The same applies to GalileoE1Pcps8msAcquisition.Adapter.SetThreshold.
- GalileoE1Pcps8msAcquisition.Adapter.SetThreshold: does not model the quantile's exceptions for out-of-range or vanishingly small probabilities; see the line above.
- GalileoE1Pcps8msAcquisition.Adapter.CalculateThreshold: with `vector_length == 0` the source's exponential distribution raises a domain error (line 256), so `set_threshold` throws when a false-alarm probability is configured. The model does not model the exception; it makes `vector_length > 0` a precondition of that path instead.
- GalileoE1Pcps8msAcquisition.Adapter.constructor: `code_length` comes from rounding a floating-point chip-rate ratio (line 83). The model takes it as a parameter.
- GalileoE1Pcps8msAcquisition.Adapter.constructor: the stream-count error messages (lines 115-122) and all logging are left out. They only write to the log.
- GalileoE1Pcps8msAcquisition.Adapter.constructor: the `--doppler_max` flag and integer configuration values are naturals in this model. Negative values would wrap on conversion to the unsigned fields, and that is not modelled. A property of the wrong kind reads as absent and gives the default.
- GalileoE1Pcps8msAcquisition.Adapter.SetGnssSynchro: the source stores a pointer that the search block also writes through. The model stores the record by value, so aliasing is not captured, and neither is a null argument.
- GalileoE1Pcps8msAcquisition.Adapter.SetLocalCode: the Galileo E1 code generator is not part of this model. It is the function value `codeGen`, whose result is taken to have `code_length` samples (the source sizes its output vector that way).
- The search block (`galileo_pcps_8ms_make_acquisition_cc`) is not part of this model. That covers the grid search, dwells and peak detection. Only its creation parameters and the calls made on it are modelled. The value `mag()` reads from it is a method parameter.
- `connect`, `disconnect`, `get_left_block`, `get_right_block` and the `stream_to_vector` block (lines 263-290, 98) are flow-graph plumbing and are left out.
- `stop_acquisition` (lines 126-128) has an empty body and is left out.
- `set_channel` and the other members defined in the class header are not part of this model. The channel number is a field that stays 0 after construction.
- Single-precision `float` values (`pfa`, thresholds, samples) are modelled as `real`. Rounding is not captured.
- `src/algorithms/signal_source/libs/jamming_detection.h` holds only declarations. `src/tests/gnss_block/gps_l2_m_dll_pll_tracking_test.cc` is a threaded flow-graph test over a data file. Neither has logic to model.
