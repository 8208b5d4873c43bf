# FastJetUtil configuration and dispatch, in Dafny

This project models the core of `FastJetUtil`, the adapter between the Marlin
event-processing framework and the FastJet jet-clustering library. The
adapter reads three steering parameters. These are the algorithm with its
numeric parameters, the recombination scheme, and the clustering mode with
its parameters. It validates them against a fixed table of supported
algorithms. For each event it then asks the clustering engine for jets in one
of four modes. One of those modes, `InclusiveIterativeNJets`, is the
adapter's own: a bisection over the clustering radius R. It looks for the
radius at which inclusive clustering, followed by a strict energy cut, yields
exactly the requested number of jets.

Modules, following the structure of `include/FastJetUtil.h`:

- `Results`: the exceptions the adapter throws, as an `Error` datatype, and a
  failure-compatible `Result`.
- `Numbers`: the C `int` / `unsigned` conversions applied to the requested
  number of jets.
- `ClusterModes`: `initClusterMode`.
- `RecoSchemes`: `initRecoScheme`.
- `JetAlgorithms`: the support table, `isJetAlgo`, the walk of `initJetAlgo`
  over the table, and jet definitions.
- `Jets`: four-vectors, the clustering engine as an opaque record of three
  query functions, `convertFromRecParticle`, and the energy cut.
- `IterativeSearch`: `doIterativeInclusiveClustering`. It has a declarative
  side (radius trajectory, step law, first matching iteration) and a method
  that mirrors the source loop and is proved equal to it.
- `FastJetUtil`: `init` (in its order: scheme, then mode, then algorithm) and
  `clusterJets`.

Modelling choices:

- The clustering engine (FastJet's `ClusterSequence` and its queries) is a
  parameter. Any deterministic function is allowed.
- `atof` and `atoi` are parameters of type `string -> real` and
  `string -> Int32`.
- pi/4 (`M_PI_4`) is the constant `QuarterPi`. Its value is left abstract;
  it is only known to be positive. Every radius bound is stated in terms of it.
- Radii and energies are `real`.
- The requested number of jets is stored `unsigned`, as in the source: the
  `atoi` value modulo 2^32. The particle-count guard casts it back to `int`.
  So a negative count in the steering file passes the guard. The iterative
  search then looks for 2^32 plus that many jets.
- `minE` comes from `atoi`, so it is a whole number (`Int32`). The search
  compares jet energies with it as a real.
- `clusterJets` builds a `ClusterSequence` from the configured definition
  before it looks at the mode (include/FastJetUtil.h:441). So the "not
  enough particles" guard does not prevent clustering. It only prevents the
  count-specific query. In the pure model that first clustering has no
  observable effect.
- Where the adapter's comments or its apparent intent differ from its code,
  the model follows the code:
  - The comment at include/FastJetUtil.h:509 describes the step in iteration
    n as R/(2n). The code halves the step each iteration, so the step in
    iteration i (0-based) is (pi/4)/2^(i+1). That is what `StepAt` and
    `StepClosedForm` state.
  - The per-iteration definition of a built-in algorithm is rebuilt from the
    algorithm, R, the scheme and the strategy only
    (include/FastJetUtil.h:552). For `genkt_algorithm`, the second
    parameter is therefore not passed on (`WithRadius`).

## Model

| member | source | states |
|---|---|---|
| Numbers.ToUnsigned | include/FastJetUtil.h:409-419 | the `atoi` value stored in the `unsigned` count: unchanged when non-negative, plus 2^32 when negative |
| Numbers.ToSigned | include/FastJetUtil.h:456-470 | the `(int)` cast of the stored count: unchanged below 2^31, negative from 2^31 on |
| Numbers.SignedUnsignedRoundTrip | include/FastJetUtil.h:409-470 | storing an `int` count as `unsigned` and casting it back returns the original, and the reverse also holds |
| ClusterModes.ParseClusterMode | include/FastJetUtil.h:382-436 | an empty list is "not specified"; a success is never NONE, its mode name is the first token, it has the mode's exact arity, and it carries the `atof`/`atoi` values of the following tokens; only the three mode errors occur |
| ClusterModes.ParseClusterModeAccepts | include/FastJetUtil.h:394-433 | accepted iff the keyword is one of the four mode names and the list length is 2, 3, 2 or 2 respectively; a known keyword with the wrong length and an unknown keyword give different errors |
| RecoSchemes.ParseRecoScheme | include/FastJetUtil.h:347-367 | a success is the scheme whose name was given; anything else is the unknown-scheme error |
| RecoSchemes.RecoSchemeRoundTrip | include/FastJetUtil.h:349-362 | each of the seven scheme names parses back to its own scheme, so the seven names map to seven distinct schemes |
| RecoSchemes.RecoSchemeAcceptedIff | include/FastJetUtil.h:347-367 | a name is accepted iff it is the name of one of the seven schemes |
| JetAlgorithms.IsJetAlgo | include/FastJetUtil.h:315-344 | a name mismatch answers false without error; true iff the name matches, the parameter count is right and the mode is supported; a name match with the wrong count is the parameter-count error, and with the right count but an unsupported mode the mode error |
| JetAlgorithms.WithRadius | include/FastJetUtil.h:545-553 | the per-iteration definition keeps the family, has R as its first parameter, keeps a SISCone plugin's overlap threshold, and keeps a built-in algorithm's scheme and strategy |
| JetAlgorithms.Build | include/FastJetUtil.h:199-280 | the definition built for an entry has that entry's family and takes its parameters, in order, from the tokens after the name; a built-in definition carries the parsed recombination scheme and the strategy `Best`, a plugin none |
| JetAlgorithms.InitJetAlgo | include/FastJetUtil.h:183-312 | an empty list is "no algorithm"; the only other errors are parameter count, unsupported mode and unknown algorithm |
| JetAlgorithms.TableNamesDistinct | include/FastJetUtil.h:199-280 | no two table entries share a name, so at most one `isJetAlgo` call can match |
| JetAlgorithms.InitJetAlgoByTable | include/FastJetUtil.h:194-309 | walking every entry in order equals looking the name up in the table: an absent name is "unknown algorithm", otherwise that one entry decides, checking the parameter count before the mode |
| JetAlgorithms.SelectedEntry | include/FastJetUtil.h:194-309 | a successful selection names a table entry, was given exactly that entry's parameter count, runs in a mode the entry supports, and built its definition from the given parameters |
| JetAlgorithms.IterativeFamilies | include/FastJetUtil.h:213-280 | every algorithm that supports the iterative mode is a built-in algorithm or a SISCone plugin with two parameters, so the search can rebuild it at any radius |
| Jets.ConvertFromRecParticle | include/FastJetUtil.h:488-501 | particle i becomes a four-vector with the same momentum and energy and user index i; user indices are distinct |
| Jets.AboveEnergy | include/FastJetUtil.h:562-566 | every kept jet has energy strictly above minE, and no more jets are kept than were given |
| Jets.AboveEnergyKeepsOrder | include/FastJetUtil.h:562-566 | the kept jets are an order-preserving subsequence of the engine's jets |
| Jets.AboveEnergyKeepsExactly | include/FastJetUtil.h:562-566 | each jet above minE is kept exactly as often as it occurs, and no jet at or below minE is kept |
| Jets.KeepAboveEnergy | include/FastJetUtil.h:559-566 | the push-back loop computes exactly the energy filter |
| IterativeSearch.StepAt | include/FastJetUtil.h:509-583 | the step in force at every iteration is positive and at most pi/8 |
| IterativeSearch.StepClosedForm | include/FastJetUtil.h:530-583 | step-size law: the step at iteration i is (pi/4)/2^(i+1), whichever way earlier iterations moved |
| IterativeSearch.RadiusBounds | include/FastJetUtil.h:508-583 | starting at pi/4 and moving by the halving steps, R at iteration i lies within twice that iteration's step of 0 and of pi/2, hence strictly inside (0, pi/2) |
| IterativeSearch.FirstMatch | include/FastJetUtil.h:539-590 | finds the first iteration within the budget of 20 whose surviving jet count equals the request, or reports that none does |
| IterativeSearch.SearchOutcome | include/FastJetUtil.h:539-599 | succeeds iff some of the 20 iterations matches; a success holds exactly the requested number of jets, all above minE, namely the survivors of the first matching iteration; otherwise the skip exception |
| IterativeSearch.OutcomeAtFirstMatch | include/FastJetUtil.h:570-571 | the search stops at the first iteration whose count matches and returns its survivors |
| IterativeSearch.OutcomeWhenNoneMatches | include/FastJetUtil.h:592-597 | when no iteration within the budget matches, the search throws the skip exception instead of returning the last list |
| IterativeSearch.LastIterationStillSucceeds | include/FastJetUtil.h:539-597 | a match in the 20th iteration still succeeds |
| IterativeSearch.SearchRounds | include/FastJetUtil.h:539-590 | the bisection loop stops at an iteration whose surviving count equals the request and returns those survivors, after iterations that all missed; if it runs all 20 iterations, none of them matched |
| IterativeSearch.DoIterativeInclusiveClustering | include/FastJetUtil.h:503-600 | the loop computes the declarative search outcome in at most 20 rounds; on success the result is the survivors of the last round run; failure only after all 20 rounds |
| FastJetUtil.Init | include/FastJetUtil.h:174-181 | every failure is a configuration error, never the per-event skip; the scheme error takes precedence over mode errors, and mode errors over algorithm errors; a success records the parsed scheme, mode and definition and agrees with one support-table entry |
| FastJetUtil.SupportedCombinationSelected | include/FastJetUtil.h:199-280 | every table algorithm given exactly its parameter count, in a mode it supports, is selected with its own family |
| FastJetUtil.WrongParameterCountRejected | include/FastJetUtil.h:327-333 | a table algorithm given any other number of parameters is rejected with the parameter-count error |
| FastJetUtil.UnsupportedModeRejected | include/FastJetUtil.h:335-341 | a table algorithm with the right count but in an unsupported mode is rejected with the mode error |
| FastJetUtil.UnknownNameRejected | include/FastJetUtil.h:305-309 | a name absent from the table is rejected as an unknown algorithm |
| FastJetUtil.ClusterJets | include/FastJetUtil.h:438-485 | Inclusive and ExclusiveYCut return the engine's answer for minPt or yCut and never fail; ExclusiveNJets and InclusiveIterativeNJets skip the event when the particle count is below the requested count, and otherwise return the exclusive answer or the search outcome (exactly n jets above minE); the only error is the skip |

## Left out

- FastJet itself (`ClusterSequence`, `inclusive_jets`, `exclusive_jets`, `exclusive_jets_ycut`, the SISCone and Valencia plugins, `JetDefinition::description`): a foreign library, modelled as the `Engine` parameter. Which jets it returns, and what it does with a `genkt_algorithm` definition that lacks its second parameter, is not modelled.
- `registerFastJetParameters`: framework registration of the steering parameters and their defaults.
- All `streamlog_out` logging: cosmetic output.
- `initStrategy`: it always picks `Best`, which is the single value of `Strategy`.
- The copy constructor, assignment operator and destructor, and every `new`/`delete` of cluster sequences, definitions and plugins: memory management. The success path (`break` at include/FastJetUtil.h:571) skips the per-iteration clean-up, and each call of `clusterJets` overwrites the `_cs` pointer at include/FastJetUtil.h:441 without deleting the previous `ClusterSequence`; only the most recent one is released, by the assignment operator (include/FastJetUtil.h:80) or the destructor (include/FastJetUtil.h:89). The model makes no claim about resource release.
- `atof`/`atoi`: taken as parameters. Their parsing rules are not modelled.
- IEEE double arithmetic: R, the steps and jet energies are exact reals. The radius bounds hold for exact arithmetic.
- The bit values of the mode flags: `EClusterMode.h` is not part of this model. Supported-mode masks are sets, and the `&` test is set membership. The mode is never NONE once `initClusterMode` has succeeded, so the NONE case of that test is not reachable.
- `clusterJets` when no mode was parsed (mode NONE, which returns an empty list): `init` would have thrown first, so `ClusterJets` requires a configuration that `Init` can produce (`Config.Valid`).
