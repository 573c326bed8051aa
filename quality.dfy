/**
 * The proof-of-quality aggregator of proof_of_quality/__init__.py: one
 * file's metadata and evaluator scores, the per-file score table, and the
 * encoding of that table into the 32-character hex record and back.
 */
module Quality {
  import opened Wrappers
  import opened Config
  import opened QualityUtils
  import opened Analyzers
  import opened Calculators
  import opened Codec

  /** What validate_sample returns, or the stand-in process_single_file uses when it does not call it. */
  datatype ValidationScore = ValidationScore(isValid: bool, score: real)

  /** What process_single_file returns for one file. */
  datatype FileScores = FileScores(metadataScore: ComponentScore, validationScore: ValidationScore)

  /** The evaluator result of a skipped evaluation. */
  const Skipped := ValidationScore(false, 0.0)

  // ---------------------------------------------------------------------
  // The semantic evaluator's per-row answers
  // ---------------------------------------------------------------------

  /**
   * The evaluator's answers for the sampled rows, as `int(score) / 100`;
   * None when some answer is not a JSON object with an integer "score".
   */
  function SampleScores(answers: seq<Option<int>>): (r: Option<seq<real>>)
    ensures r.None? <==> exists i :: 0 <= i < |answers| && answers[i].None?
    ensures r.Some? ==> |r.value| == |answers|
    ensures r.Some? ==> forall i :: 0 <= i < |answers| ==> r.value[i] == answers[i].value as real / 100.0
  {
    if answers == [] then Some([])
    else
      var init := answers[..|answers| - 1];
      var last := answers[|answers| - 1];
      assert forall i :: 0 <= i < |init| ==> init[i] == answers[i];
      match SampleScores(init)
      case None => None
      case Some(xs) =>
        match last
        case None => None
        case Some(v) => Some(xs + [v as real / 100.0])
  }

  /**
   * validate_sample once the rows are sampled and answered: any unusable
   * answer gives (False, 0.0); otherwise the mean answer, valid when it
   * reaches the threshold. No answers at all is a ZeroDivisionError.
   */
  function ValidatedSample(answers: seq<Option<int>>, thresholdScore: real): (r: Result<ValidationScore, Error>)
    ensures r.Failure? <==> answers == []
    ensures (exists i :: 0 <= i < |answers| && answers[i].None?) ==> r == Success(Skipped)
    ensures r.Success? && r.value.isValid ==> r.value.score >= thresholdScore / 100.0
    ensures answers != [] && SampleScores(answers).Some? ==>
              r.Success? && r.value.score == Sum(SampleScores(answers).value) / |answers| as real
              && (r.value.isValid <==> r.value.score >= thresholdScore / 100.0)
  {
    match SampleScores(answers)
    case None => Success(Skipped)
    case Some(xs) =>
      if xs == [] then Failure(DivisionByZero)
      else
        var mean := Sum(xs) / |xs| as real;
        Success(ValidationScore(mean >= thresholdScore / 100.0, mean))
  }

  /** validate_sample's loop over the sampled rows, then the mean. */
  method ScoreSample(answers: seq<Option<int>>, thresholdScore: real) returns (r: Result<ValidationScore, Error>)
    ensures r == ValidatedSample(answers, thresholdScore)
  {
    var scores: seq<real> := [];
    for i := 0 to |answers|
      invariant SampleScores(answers[..i]) == Some(scores)
    {
      assert answers[..i + 1][..i] == answers[..i];
      if answers[i].None? {
        assert answers[..i + 1][i].None?;
        SampleFailureSticks(answers, i + 1);
        return Success(Skipped);
      }
      scores := scores + [answers[i].value as real / 100.0];
    }
    assert answers[..|answers|] == answers;
    if scores == [] {
      return Failure(DivisionByZero);
    }
    var mean := Sum(scores) / |scores| as real;
    return Success(ValidationScore(mean >= thresholdScore / 100.0, mean));
  }

  lemma SampleFailureSticks(answers: seq<Option<int>>, k: nat)
    requires k <= |answers| && SampleScores(answers[..k]).None?
    ensures SampleScores(answers).None?
  {
    var i :| 0 <= i < k && answers[..k][i].None?;
    assert answers[i].None?;
  }

  /** The sum of n values in [0, 1] lies in [0, n]. */
  lemma {:induction false} SumOfUnits(xs: seq<real>)
    requires forall i :: 0 <= i < |xs| ==> 0.0 <= xs[i] <= 1.0
    ensures 0.0 <= Sum(xs) <= |xs| as real
    decreases |xs|
  {
    if xs != [] {
      SumOfUnits(xs[..|xs| - 1]);
    }
  }

  /** Answers in 0..100 give an evaluator score in [0, 1]. */
  lemma SampleScoreInUnit(answers: seq<Option<int>>, thresholdScore: real)
    requires answers != []
    requires forall i :: 0 <= i < |answers| ==> answers[i].Some? && 0 <= answers[i].value <= 100
    ensures 0.0 <= ValidatedSample(answers, thresholdScore).value.score <= 1.0
  {
    var xs := SampleScores(answers).value;
    SumOfUnits(xs);
    MeanOfUnits(Sum(xs), |xs| as real);
  }

  lemma MeanOfUnits(total: real, n: real)
    requires 0.0 < n && 0.0 <= total <= n
    ensures 0.0 <= total / n <= 1.0
  {
    DivMonotone(total, n, n);
    DivMonotone(0.0, total, n);
  }

  /**
   * Nothing bounds the evaluator's integer: a single answer of 200 gives a
   * validation score of 2.0, which quantises past 255.
   */
  lemma OverRangeAnswer(thresholdScore: real)
    ensures ValidatedSample([Some(200)], thresholdScore) == Success(ValidationScore(2.0 >= thresholdScore / 100.0, 2.0))
    ensures Quantize(2.0) > 255
  {
    var xs := SampleScores([Some(200)]).value;
    assert xs == [2.0];
    assert Sum(xs) == Sum([]) + 2.0;
    QuantizeOverflow(2.0);
  }

  /** A mean just above 1 (answers 100, 100, 101) still quantises to 255, so it packs without error. */
  lemma SlightlyOverRangeAnswers(thresholdScore: real)
    ensures ValidatedSample([Some(100), Some(100), Some(101)], thresholdScore).value.score == 301.0 / 300.0
    ensures Quantize(301.0 / 300.0) == 255
  {
    var answers := [Some(100), Some(100), Some(101)];
    var xs := SampleScores(answers).value;
    assert xs == [1.0, 1.0, 1.01];
    assert Sum([1.0]) == 1.0 by { assert [1.0][..0] == []; }
    assert Sum([1.0, 1.0]) == 2.0 by { assert [1.0, 1.0][..1] == [1.0]; }
    assert Sum(xs) == 3.01 by { assert xs[..2] == [1.0, 1.0]; }
  }

  // ---------------------------------------------------------------------
  // One file
  // ---------------------------------------------------------------------

  /** process_single_file runs the evaluator only with an API key and valid metadata. */
  predicate RunsEvaluator(config: map<string, string>, metadataScore: ComponentScore) {
    "OPENAI_API_KEY" in config && metadataScore.isValid
  }

  /** The guarantees process_single_file gives about a successful result for a file with settings `config`. */
  predicate ScoresSound(config: map<string, string>, evaluation: Result<ValidationScore, Error>, scores: FileScores) {
    && GetValidationConfig(config).Success?
    && 0.0 <= scores.metadataScore.score <= 1.0
    && (scores.metadataScore.isValid ==> scores.metadataScore.score >= Threshold(GetValidationConfig(config).value))
    && (!RunsEvaluator(config, scores.metadataScore) ==> scores.validationScore == Skipped)
    && (RunsEvaluator(config, scores.metadataScore) ==> evaluation == Success(scores.validationScore))
  }

  /**
   * process_single_file once analyze_data has summarised the rows: the
   * network's profile, calculate_score, then the evaluator (`evaluation`,
   * what validate_sample would return) or its skipped stand-in.
   */
  function ScoreMetadata(rt: Runtime, now: Instant, name: string, metadata: Metadata,
                         config: map<string, string>, evaluation: Result<ValidationScore, Error>): (r: Result<FileScores, Error>)
    requires Log1pPositive(rt.log1p)
    requires RuleOf(name).Some? && metadata.RuleOfMetadata() == RuleOf(name).value && metadata.Consistent()
    ensures r.Success? ==> ScoresSound(config, evaluation, r.value)
    ensures r.Success? ==> CalculateScore(rt, now, name, metadata, GetValidationConfig(config).value) == Success(r.value.metadataScore)
    ensures GetValidationConfig(config).Failure? ==> r == Failure(GetValidationConfig(config).error)
  {
    match GetValidationConfig(config)
    case Failure(e) => Failure(e)
    case Success(profile) =>
      CalculateScoreInUnit(rt, now, name, metadata, profile);
      match CalculateScore(rt, now, name, metadata, profile)
      case Failure(e) => Failure(e)
      case Success(metadataScore) =>
        if RunsEvaluator(config, metadataScore) then
          match evaluation
          case Failure(e) => Failure(e)
          case Success(validationScore) => Success(FileScores(metadataScore, validationScore))
        else Success(FileScores(metadataScore, Skipped))
  }

  /** process_single_file after the CSV is read: analyze_data, then ScoreMetadata. */
  function ProcessSingleFile(rt: Runtime, now: Instant, name: string, rows: seq<Row>,
                             config: map<string, string>, evaluation: Result<ValidationScore, Error>): (r: Result<FileScores, Error>)
    requires Log1pPositive(rt.log1p)
    ensures RuleOf(name).None? ==> r == Failure(UnknownFileType(name))
    ensures r.Success? ==> ScoresSound(config, evaluation, r.value)
    ensures r.Success? ==> AnalyzeData(rt, name, rows).Success?
                           && CalculateScore(rt, now, name, AnalyzeData(rt, name, rows).value, GetValidationConfig(config).value)
                              == Success(r.value.metadataScore)
  {
    match AnalyzeData(rt, name, rows)
    case Failure(e) => Failure(e)
    case Success(metadata) => ScoreMetadata(rt, now, name, metadata, config, evaluation)
  }

  // ---------------------------------------------------------------------
  // The score table
  // ---------------------------------------------------------------------

  /** calculate_weighted_scores: the two "score" fields of every registry file present, nothing else. */
  method CalculateWeightedScores(scores: map<string, FileScores>) returns (weighted: map<string, (real, real)>)
    ensures weighted.Keys == set n | n in InterestingFiles && n in scores
    ensures forall n :: n in weighted ==> weighted[n] == (scores[n].metadataScore.score, scores[n].validationScore.score)
  {
    weighted := map[];
    for i := 0 to |InterestingFiles|
      invariant weighted.Keys == set n | n in InterestingFiles[..i] && n in scores
      invariant forall n :: n in weighted ==> n in scores && weighted[n] == (scores[n].metadataScore.score, scores[n].validationScore.score)
    {
      var name := InterestingFiles[i];
      assert InterestingFiles[..i + 1] == InterestingFiles[..i] + [name];
      if name in scores {
        weighted := weighted[name := (scores[name].metadataScore.score, scores[name].validationScore.score)];
      }
    }
    assert InterestingFiles[..|InterestingFiles|] == InterestingFiles;
  }

  /** `scores.get(name, (0.0, 0.0))`. */
  function ScoreOrZero(scores: map<string, (real, real)>, name: string): (real, real) {
    if name in scores then scores[name] else (0.0, 0.0)
  }

  /** Both scores of every file in [0, 1]. */
  predicate InUnit(scores: map<string, (real, real)>) {
    forall n :: n in scores ==> 0.0 <= scores[n].0 <= 1.0 && 0.0 <= scores[n].1 <= 1.0
  }

  /** The metadata scores in registry order, 0.0 for an absent file. */
  function OrderedMetadata(scores: map<string, (real, real)>): (r: seq<real>)
    ensures |r| == |InterestingFiles|
  {
    seq(|InterestingFiles|, i requires 0 <= i < |InterestingFiles| => ScoreOrZero(scores, InterestingFiles[i]).0)
  }

  /** The validation scores in registry order, 0.0 for an absent file. */
  function OrderedValidation(scores: map<string, (real, real)>): (r: seq<real>)
    ensures |r| == |InterestingFiles|
  {
    seq(|InterestingFiles|, i requires 0 <= i < |InterestingFiles| => ScoreOrZero(scores, InterestingFiles[i]).1)
  }

  /** post_process_scores: quantise both ordered lists and pack them. */
  function PostProcessed(scores: map<string, (real, real)>): (r: Result<string, Error>)
    ensures r.Success? ==> |r.value| == 4 * |InterestingFiles|
    ensures r.Failure? ==> !InUnit(scores) && r.error != LengthMismatch
  {
    PackedScores(QuantizeScores(OrderedMetadata(scores)), QuantizeScores(OrderedValidation(scores)))
  }

  /** post_process_scores: the registry loop building the two ordered lists, then quantise and pack. */
  method PostProcessScores(scores: map<string, (real, real)>) returns (r: Result<string, Error>)
    ensures r == PostProcessed(scores)
  {
    var metadata: seq<real> := [];
    var validation: seq<real> := [];
    for i := 0 to |InterestingFiles|
      invariant metadata == OrderedMetadata(scores)[..i]
      invariant validation == OrderedValidation(scores)[..i]
    {
      var name := InterestingFiles[i];
      var pair := if name in scores then scores[name] else (0.0, 0.0);
      metadata := metadata + [pair.0];
      validation := validation + [pair.1];
    }
    assert metadata == OrderedMetadata(scores);
    assert validation == OrderedValidation(scores);
    r := PackScores(QuantizeScores(metadata), QuantizeScores(validation));
  }

  /** Scores in [0, 1] always pack, into 32 lowercase hex digits. */
  lemma PostProcessedShape(scores: map<string, (real, real)>)
    requires InUnit(scores)
    ensures PostProcessed(scores).Success?
    ensures |PostProcessed(scores).value| == 4 * |InterestingFiles| == 32
    ensures forall k :: 0 <= k < 32 ==> IsLowerHex(PostProcessed(scores).value[k])
  {
    var qm := QuantizeScores(OrderedMetadata(scores));
    var qv := QuantizeScores(OrderedValidation(scores));
    assert InByteRange(qm) && InByteRange(qv);
    PackedLowerHex(qm, qv);
  }

  /** The hex block of n zero scores is 2n '0' characters. */
  lemma {:induction false} HexBlockZeros(xs: seq<int>)
    requires forall i :: 0 <= i < |xs| ==> xs[i] == 0
    ensures InByteRange(xs) && forall k :: 0 <= k < 2 * |xs| ==> HexBlock(xs)[k] == '0'
    decreases |xs|
  {
    if xs != [] {
      var init := xs[..|xs| - 1];
      HexBlockZeros(init);
      assert HexBlock(xs) == HexBlock(init) + Hex2(0);
    }
  }

  /** With no files at all the record is 32 '0' characters. */
  lemma EmptyRecord()
    ensures PostProcessed(map[]) == Success(seq(32, k => '0'))
  {
    var qm := QuantizeScores(OrderedMetadata(map[]));
    var qv := QuantizeScores(OrderedValidation(map[]));
    QuantizeExamples();
    assert forall i :: 0 <= i < |qm| ==> qm[i] == Quantize(0.0) == 0;
    assert forall i :: 0 <= i < |qv| ==> qv[i] == Quantize(0.0) == 0;
    HexBlockZeros(qm);
    HexBlockZeros(qv);
    var s := HexBlock(qm) + HexBlock(qv);
    assert forall k :: 0 <= k < 32 ==> s[k] == '0' by {
      forall k | 0 <= k < 32
        ensures s[k] == '0'
      {
        if k >= 16 {
          assert s[k] == HexBlock(qv)[k - 16];
        }
      }
    }
    assert s == seq(32, k => '0');
  }

  // ---------------------------------------------------------------------
  // Decoding
  // ---------------------------------------------------------------------

  /** The `/ 255` comprehension of post_process_decode. */
  function DecodeScores(q: seq<int>): (r: seq<real>)
    ensures |r| == |q|
  {
    seq(|q|, i requires 0 <= i < |q| => q[i] as real / 255.0)
  }

  /** No name occurs twice. */
  predicate NoDuplicates(names: seq<string>) {
    forall i, j :: 0 <= i < j < |names| ==> names[i] != names[j]
  }

  /**
   * The dictionary post_process_decode builds from the first k positions of
   * `zip(names, metadata, validation)`, keeping a file unless both of its
   * scores are 0.
   */
  function DecodedPrefix(names: seq<string>, metadata: seq<real>, validation: seq<real>, k: nat): (r: map<string, (real, real)>)
    requires NoDuplicates(names)
    requires k <= |names| && k <= |metadata| && k <= |validation|
    ensures forall n :: n in r ==> n in names[..k]
    ensures forall i :: 0 <= i < k ==> (names[i] in r <==> metadata[i] > 0.0 || validation[i] > 0.0)
    ensures forall i :: 0 <= i < k && names[i] in r ==> r[names[i]] == (metadata[i], validation[i])
  {
    if k == 0 then map[]
    else
      var d := DecodedPrefix(names, metadata, validation, k - 1);
      assert names[..k] == names[..k - 1] + [names[k - 1]];
      if metadata[k - 1] > 0.0 || validation[k - 1] > 0.0 then d[names[k - 1] := (metadata[k - 1], validation[k - 1])]
      else d
  }

  function Min3(a: nat, b: nat, c: nat): (m: nat)
    ensures m <= a && m <= b && m <= c && (m == a || m == b || m == c)
  {
    if a <= b && a <= c then a else if b <= c then b else c
  }

  /** The dictionary post_process_decode builds from two unpacked lists. */
  function DecodedTable(metadata: seq<int>, validation: seq<int>): (r: map<string, (real, real)>)
    ensures forall n :: n in r ==> n in InterestingFiles
  {
    InterestingFilesDistinct();
    var m, v := DecodeScores(metadata), DecodeScores(validation);
    DecodedPrefix(InterestingFiles, m, v, Min3(|InterestingFiles|, |m|, |v|))
  }

  /** post_process_decode: unpack, divide by 255, and keep the files with a non-zero score. */
  function Decoded(packed: string): (r: Result<map<string, (real, real)>, Error>)
    ensures r.Failure? ==> r.error.NotHex?
  {
    match UnpackedScores(packed)
    case Failure(e) => Failure(e)
    case Success((metadata, validation)) => Success(DecodedTable(metadata, validation))
  }

  /** The zip loop of post_process_decode over the first k names, filling the dictionary. */
  method FillTable(names: seq<string>, m: seq<real>, v: seq<real>, k: nat) returns (scoresDict: map<string, (real, real)>)
    requires NoDuplicates(names)
    requires k <= |names| && k <= |m| && k <= |v|
    ensures scoresDict == DecodedPrefix(names, m, v, k)
  {
    scoresDict := map[];
    for i := 0 to k
      invariant scoresDict == DecodedPrefix(names, m, v, i)
    {
      scoresDict := if m[i] > 0.0 || v[i] > 0.0 then scoresDict[names[i] := (m[i], v[i])] else scoresDict;
    }
  }

  /** post_process_decode's division by 255 and its zip loop over the registry. */
  method BuildTable(metadata: seq<int>, validation: seq<int>) returns (scoresDict: map<string, (real, real)>)
    ensures scoresDict == DecodedTable(metadata, validation)
  {
    InterestingFilesDistinct();
    var m := DecodeScores(metadata);
    var v := DecodeScores(validation);
    scoresDict := FillTable(InterestingFiles, m, v, Min3(|InterestingFiles|, |m|, |v|));
  }

  /** post_process_decode: unpack, then build the dictionary. */
  method PostProcessDecode(packed: string) returns (r: Result<map<string, (real, real)>, Error>)
    ensures r == Decoded(packed)
  {
    var unpacked := UnpackScores(packed);
    if unpacked.Failure? {
      return Failure(unpacked.error);
    }
    var table := BuildTable(unpacked.value.0, unpacked.value.1);
    return Success(table);
  }

  /** Packing quantised lists that fit and decoding the record gives the table of those lists. */
  lemma DecodePacked(metadata: seq<int>, validation: seq<int>)
    requires |metadata| == |validation| && InByteRange(metadata) && InByteRange(validation)
    ensures PackedScores(metadata, validation).Success?
    ensures Decoded(PackedScores(metadata, validation).value) == Success(DecodedTable(metadata, validation))
  {
    UnpackPacked(metadata, validation);
  }

  /** A decoded table's entry for `name`, given its two quantised scores q0 and q1. */
  predicate EntryDecodes(d: map<string, (real, real)>, name: string, q0: int, q1: int) {
    && (name in d <==> q0 > 0 || q1 > 0)
    && ScoreOrZero(d, name) == (q0 as real / 255.0, q1 as real / 255.0)
  }

  /** Entry i of a table decoded from lists as long as the name list. */
  lemma DecodedPrefixAt(names: seq<string>, metadata: seq<int>, validation: seq<int>, i: nat)
    requires NoDuplicates(names) && |metadata| == |validation| == |names| && i < |names|
    requires InByteRange(metadata) && InByteRange(validation)
    ensures EntryDecodes(DecodedPrefix(names, DecodeScores(metadata), DecodeScores(validation), |names|), names[i], metadata[i], validation[i])
  {
    var m, v := DecodeScores(metadata), DecodeScores(validation);
    var d := DecodedPrefix(names, m, v, |names|);
    assert m[i] == metadata[i] as real / 255.0 && v[i] == validation[i] as real / 255.0;
    if metadata[i] > 0 || validation[i] > 0 {
      assert m[i] > 0.0 || v[i] > 0.0;
      assert d[names[i]] == (m[i], v[i]);
    } else {
      assert m[i] == 0.0 && v[i] == 0.0;
      assert names[i] !in d;
    }
  }

  /** Entry i of the decoded table: present iff a quantised score is non-zero, and holding both over 255. */
  lemma DecodedTableAt(metadata: seq<int>, validation: seq<int>, i: nat)
    requires |metadata| == |validation| == |InterestingFiles| && i < |InterestingFiles|
    requires InByteRange(metadata) && InByteRange(validation)
    ensures EntryDecodes(DecodedTable(metadata, validation), InterestingFiles[i], metadata[i], validation[i])
  {
    InterestingFilesDistinct();
    DecodedPrefixAt(InterestingFiles, metadata, validation, i);
  }

  /**
   * Decoding an encoded table: file i is present exactly when one of its
   * quantised scores is non-zero, and decodes to the quantised scores over 255.
   */
  lemma DecodePostProcessed(scores: map<string, (real, real)>, i: nat)
    requires InUnit(scores) && i < |InterestingFiles|
    ensures PostProcessed(scores).Success? && Decoded(PostProcessed(scores).value).Success?
    ensures EntryDecodes(Decoded(PostProcessed(scores).value).value, InterestingFiles[i],
                         Quantize(ScoreOrZero(scores, InterestingFiles[i]).0),
                         Quantize(ScoreOrZero(scores, InterestingFiles[i]).1))
  {
    var qm := QuantizeScores(OrderedMetadata(scores));
    var qv := QuantizeScores(OrderedValidation(scores));
    DecodePacked(qm, qv);
    var d := DecodedTable(qm, qv);
    assert Decoded(PostProcessed(scores).value).value == d;
    DecodedTableAt(qm, qv, i);
    var name := InterestingFiles[i];
    assert qm[i] == Quantize(ScoreOrZero(scores, name).0);
    assert qv[i] == Quantize(ScoreOrZero(scores, name).1);
    assert EntryDecodes(d, name, qm[i], qv[i]);
  }

  /** A file absent from the table is absent after encoding and decoding. */
  lemma AbsentStaysAbsent(scores: map<string, (real, real)>, name: string)
    requires InUnit(scores) && name in InterestingFiles && name !in scores
    ensures PostProcessed(scores).Success? && Decoded(PostProcessed(scores).value).Success?
    ensures name !in Decoded(PostProcessed(scores).value).value
  {
    var i := Position(name);
    DecodePostProcessed(scores, i);
    assert Quantize(0.0) == 0;
  }

  /** Quantisation error is one-sided and below one step: decoded <= original < decoded + 1/255. */
  predicate WithinStep(original: real, decoded: real) {
    decoded <= original < decoded + 1.0 / 255.0
  }

  /** WithinStep for both scores of a file. */
  predicate PairWithinStep(original: (real, real), decoded: (real, real)) {
    WithinStep(original.0, decoded.0) && WithinStep(original.1, decoded.1)
  }

  /** Every registry file's scores survive encoding and decoding to within one quantisation step. */
  lemma RoundTripWithinStep(scores: map<string, (real, real)>, name: string)
    requires InUnit(scores) && name in InterestingFiles
    ensures PostProcessed(scores).Success? && Decoded(PostProcessed(scores).value).Success?
    ensures PairWithinStep(ScoreOrZero(scores, name), ScoreOrZero(Decoded(PostProcessed(scores).value).value, name))
  {
    var i := Position(name);
    DecodePostProcessed(scores, i);
    var o := ScoreOrZero(scores, name);
    QuantizeUnit(o.0);
    QuantizeUnit(o.1);
  }

  /** What test_post_process_scores demands of each decoded score: `abs(decoded - original) < 0.001`. */
  predicate WithinTestTolerance(original: real, decoded: real) {
    -0.001 < decoded - original < 0.001
  }

  /**
   * The test's first table puts 0.5 at the cart file; it decodes to
   * 127/255, about 0.00196 below, so the test's check cannot pass.
   */
  lemma TestToleranceFails(scores: map<string, (real, real)>)
    requires InUnit(scores) && InterestingFiles[0] in scores && scores[InterestingFiles[0]].0 == 0.5
    ensures PostProcessed(scores).Success? && Decoded(PostProcessed(scores).value).Success?
    ensures !WithinTestTolerance(0.5, ScoreOrZero(Decoded(PostProcessed(scores).value).value, InterestingFiles[0]).0)
  {
    DecodePostProcessed(scores, 0);
    QuantizeExamples();
  }
}
