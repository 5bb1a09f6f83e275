/** The two mixup pipeline operators: `Mixup` blends every image of a batch
    with a partner image from the same batch, and `LabelMixup` records, for
    every sample, its label, its partner's label and the blend weight. Each
    operator has a planning call, which checks the pipeline state and asks for
    a destination buffer, and a per-batch call, which works in place on the
    batch and on that buffer. Both per-batch calls seed a fresh generator from
    the batch's seed and draw a permutation, then one weight per sample, so
    the two agree on partners and weights. */
module Mixup {
  import opened Pipeline
  import opened NumpyRandom
  import opened NumpyArrays

  // ---------------------------------------------------------------------------
  // Planning

  /** `LabelMixup.declare_state_and_memory`: passes the state on and asks for
      a buffer of three `float16` values per sample. */
  function LabelMixupDeclare(previous: State): (plan: Plan)
    ensures plan.next == previous
    ensures plan.query == Some(AllocationQuery([3], Some(Float16)))
  {
    Plan(previous, Some(AllocationQuery([3], Some(Float16))))
  }

  /** `Mixup.declare_state_and_memory`: refuses to plan unless the pipeline
      runs compiled code in the per-batch stage (checked in that order), and
      otherwise passes the state on and asks for a buffer shaped like one
      sample, with no element type named. */
  function MixupDeclare(previous: State): (r: Result<Plan, PlanError>)
    ensures r.Success? <==> previous.jitMode && previous.stage == Batches
    ensures !previous.jitMode ==> r == Failure(JitModeRequired)
    ensures previous.jitMode && previous.stage != Batches ==> r == Failure(BatchStageRequired)
    ensures r.Success? ==> r.value.next == previous
    ensures r.Success? ==> r.value.query == Some(AllocationQuery(previous.shape, None))
  {
    if !previous.jitMode then Failure(JitModeRequired)
    else if previous.stage != Batches then Failure(BatchStageRequired)
    else Success(Plan(previous, Some(AllocationQuery(previous.shape, None))))
  }

  /** The two operators of this file. */
  datatype Operator = LabelMixupOperator | MixupOperator

  function Declare(op: Operator, previous: State): Result<Plan, PlanError> {
    match op
    case LabelMixupOperator => Success(LabelMixupDeclare(previous))
    case MixupOperator => MixupDeclare(previous)
  }

  /** The queries of a run of operators planned in order, each handed the
      state its predecessor returned; the first refusal aborts planning. */
  function DeclareAll(ops: seq<Operator>, state: State): Result<(State, seq<Option<AllocationQuery>>), PlanError>
    decreases |ops|
  {
    if ops == [] then Success((state, []))
    else match Declare(ops[0], state)
      case Failure(e) => Failure(e)
      case Success(plan) =>
        match DeclareAll(ops[1..], plan.next)
        case Failure(e) => Failure(e)
        case Success((last, queries)) => Success((last, [plan.query] + queries))
  }

  /** Planning any run of mixup operators leaves the state as it was; it
      succeeds exactly when there is no `Mixup` in the run or the state is in
      compiled, per-batch mode; and then every operator gets the buffer it
      asks for of the state it was handed. */
  lemma {:induction false} DeclareAllKeepsState(ops: seq<Operator>, state: State)
    ensures DeclareAll(ops, state).Success?
      <==> (MixupOperator !in ops || (state.jitMode && state.stage == Batches))
    ensures DeclareAll(ops, state).Success? ==>
      var (last, queries) := DeclareAll(ops, state).value;
      && last == state
      && |queries| == |ops|
      && forall k :: 0 <= k < |ops| ==>
           queries[k] == (if ops[k] == MixupOperator then Some(AllocationQuery(state.shape, None))
                          else Some(AllocationQuery([3], Some(Float16))))
    decreases |ops|
  {
    if ops != [] {
      DeclareAllKeepsState(ops[1..], state);
      assert ops == [ops[0]] + ops[1..];
      assert MixupOperator in ops <==> ops[0] == MixupOperator || MixupOperator in ops[1..];
    }
  }

  // ---------------------------------------------------------------------------
  // Blending images

  /** Sample `x` blended with sample `y` at weight `lam`, element by element. */
  function Blend(x: seq<real>, y: seq<real>, lam: real): (z: seq<real>)
    requires |x| == |y|
    ensures |z| == |x|
  {
    seq(|x|, j requires 0 <= j < |x| => lam * x[j] + (1.0 - lam) * y[j])
  }

  /** The mixup of a batch: sample i blended with sample `d.order[i]` at
      weight `d.lam[i]`. */
  function Mixed(rows: seq<seq<real>>, d: Draw): (r: seq<seq<real>>)
    requires Rectangular(rows)
    requires InRange(d.order, |rows|) && |d.lam| == |rows|
    ensures |r| == |rows|
    ensures forall i :: 0 <= i < |r| ==> |r[i]| == |rows[i]|
  {
    seq(|rows|, i requires 0 <= i < |rows| => Blend(rows[i], rows[d.order[i]], d.lam[i]))
  }

  /** A sample that is its own partner comes out as it went in, whatever its
      weight. */
  lemma SelfPartnerUnchanged(rows: seq<seq<real>>, d: Draw, i: nat)
    requires Rectangular(rows)
    requires InRange(d.order, |rows|) && |d.lam| == |rows|
    requires i < |rows| && d.order[i] == i
    ensures Mixed(rows, d)[i] == rows[i]
  {
    var lam := d.lam[i];
    forall j | 0 <= j < |rows[i]|
      ensures Mixed(rows, d)[i][j] == rows[i][j]
    {
      var x := rows[i][j];
      calc {
        Mixed(rows, d)[i][j];
        lam * x + (1.0 - lam) * x;
        { assert (1.0 - lam) * x == x - lam * x; }
        x;
      }
    }
  }

  /** A weight in [0, 1) blends two numbers into one that lies between them. */
  lemma BlendedBetween(x: real, y: real, lam: real)
    requires 0.0 <= lam < 1.0
    ensures var z := lam * x + (1.0 - lam) * y;
      (x <= y ==> x <= z <= y) && (y <= x ==> y <= z <= x)
  {
    var z := lam * x + (1.0 - lam) * y;
    var gap := if x <= y then y - x else x - y;
    var rest := 1.0 - lam;
    assert gap >= 0.0 && rest > 0.0;
    assert rest * gap >= 0.0 && lam * gap >= 0.0;
    assert z - x == (1.0 - lam) * (y - x);
    assert y - z == lam * (y - x);
  }

  /** With weights in [0, 1) every element of the mixup lies between the two
      elements it blends. */
  lemma MixedBetween(rows: seq<seq<real>>, d: Draw, i: nat, j: nat)
    requires Rectangular(rows)
    requires InRange(d.order, |rows|) && IsUnitSample(d.lam, |rows|)
    requires i < |rows| && j < |rows[i]|
    ensures var x, y := rows[i][j], rows[d.order[i]][j];
      var z := Mixed(rows, d)[i][j];
      (x <= y ==> x <= z <= y) && (y <= x ==> y <= z <= x)
  {
    var x, y := rows[i], rows[d.order[i]];
    assert Mixed(rows, d)[i] == Blend(x, y, d.lam[i]);
    BlendedBetween(x[j], y[j], d.lam[i]);
  }

  /** The three in-place steps of `mixup_batch` compute the mixup: the batch
      scaled by the weights, plus the partners scaled by the complements. */
  lemma InPlaceStepsMix(rows: seq<seq<real>>, d: Draw)
    requires Rectangular(rows)
    requires InRange(d.order, |rows|) && |d.lam| == |rows|
    ensures var partners := Scaled(Gathered(rows, d.order), Complement(d.lam));
      (forall i :: 0 <= i < |rows| ==> |partners[i]| == |rows[i]|)
      && Sum(Scaled(rows, d.lam), partners) == Mixed(rows, d)
  {
    var partners := Scaled(Gathered(rows, d.order), Complement(d.lam));
    forall i | 0 <= i < |rows|
      ensures |partners[i]| == |rows[i]|
      ensures Sum(Scaled(rows, d.lam), partners)[i] == Mixed(rows, d)[i]
    {
      InPlaceStepsMixRow(rows, d, i);
    }
  }

  lemma InPlaceStepsMixRow(rows: seq<seq<real>>, d: Draw, i: nat)
    requires Rectangular(rows)
    requires InRange(d.order, |rows|) && |d.lam| == |rows|
    requires i < |rows|
    ensures var partners := Scaled(Gathered(rows, d.order), Complement(d.lam));
      && |partners[i]| == |rows[i]|
      && Sum(Scaled(rows, d.lam), partners)[i] == Mixed(rows, d)[i]
  {
    var p := d.order[i];
    var lam := d.lam[i];
    var x, y := rows[i], rows[p];
    assert |y| == |rows[0]| == |x|;
    assert Gathered(rows, d.order)[i] == y;
    assert Complement(d.lam)[i] == 1.0 - lam;
    ScaledRowsBlend(x, y, lam);
  }

  /** Scaling one row by `lam`, another by `1 - lam` and adding them blends them. */
  lemma ScaledRowsBlend(x: seq<real>, y: seq<real>, lam: real)
    requires |x| == |y|
    ensures AddRow(ScaleRow(x, lam), ScaleRow(y, 1.0 - lam)) == Blend(x, y, lam)
  {
  }

  /** `1. - lam`, element by element. */
  function Complement(lam: seq<real>): (c: seq<real>)
    ensures |c| == |lam|
  {
    seq(|lam|, i requires 0 <= i < |lam| => 1.0 - lam[i])
  }

  /** The per-batch call of `Mixup` (`mixup_batch`). It draws the partner
      order, copies the batch into `dst` in that order, draws the weights,
      scales the batch by the weights and `dst` by their complements, and adds
      `dst` into the batch. The batch it returns, which is the one it was
      given, holds the mixup of the batch; `dst` holds the partners' scaled
      share. */
  method MixupBatch(bits: BitGenerator, state: State, imageBatch: array2<real>, dst: array2<real>)
    returns (out: array2<real>)
    requires Sound(bits)
    requires dst != imageBatch
    requires dst.Length0 == imageBatch.Length0 && dst.Length1 == imageBatch.Length1
    modifies imageBatch, dst
    ensures out == imageBatch
    ensures var d := Draws(bits, state.randomSeed, imageBatch.Length0);
      && Rows(imageBatch) == Mixed(old(Rows(imageBatch)), d)
      && Rows(dst) == Scaled(Gathered(old(Rows(imageBatch)), d.order), Complement(d.lam))
  {
    ghost var original := Rows(imageBatch);
    var n := imageBatch.Length0;
    var rng := DefaultRng(state.randomSeed);

    var drawn := DrawPermutation(bits, rng, n);
    var mixupOrder := drawn.0;
    rng := drawn.1;
    GatherInto(imageBatch, mixupOrder, dst);

    var weights := DrawRandom(bits, rng, n);
    var lam := weights.0;
    rng := weights.1;

    ScaleRowsInPlace(imageBatch, lam);
    ScaleRowsInPlace(dst, Complement(lam));
    AddInPlace(imageBatch, dst);
    out := imageBatch;

    ghost var d := Draws(bits, state.randomSeed, n);
    assert d.order == mixupOrder && d.lam == lam;
    InPlaceStepsMix(original, d);
  }

  /** The per-batch call of `Mixup` as the source writes it, run as
      interpreted Python: `rng.permutation` resolves, the permutation is drawn
      and `dst` filled; then the weights are asked of `rng.rand`, a name
      `Generator` does not have, so the call ends with an attribute error,
      `dst` overwritten and the batch untouched. */
  method MixupBatchAsWritten(bits: BitGenerator, state: State, imageBatch: array2<real>, dst: array2<real>)
    returns (r: Result<array2<real>, Fault>)
    requires Sound(bits)
    requires dst != imageBatch
    requires dst.Length0 == imageBatch.Length0 && dst.Length1 == imageBatch.Length1
    modifies dst
    ensures r == Failure(AttributeError("rand"))
    ensures Rows(dst) == Gathered(Rows(imageBatch), Draws(bits, state.randomSeed, imageBatch.Length0).order)
    ensures multiset(Rows(dst)) == multiset(Rows(imageBatch))
  {
    SourceNamesMissing();
    var rng := DefaultRng(state.randomSeed);
    var permutation := GetAttr(rng, "permutation");
    if permutation.Failure? {
      assert false;
    }
    var drawn := DrawPermutation(bits, rng, imageBatch.Length0);
    rng := drawn.1;
    GatherInto(imageBatch, drawn.0, dst);
    GatheredIsRearrangement(Rows(imageBatch), drawn.0);
    var rand := GetAttr(rng, "rand");
    if rand.Success? {
      assert false;
    }
    r := Failure(rand.error);
  }

  // ---------------------------------------------------------------------------
  // Recording labels

  /** The label table of a batch: for sample i, its label, its partner's
      label and its weight. */
  function LabelTable(labels: seq<real>, d: Draw): (t: seq<seq<real>>)
    requires InRange(d.order, |labels|) && |d.lam| == |labels|
    ensures |t| == |labels|
    ensures forall i :: 0 <= i < |t| ==> |t[i]| == 3
  {
    seq(|labels|, i requires 0 <= i < |labels| => [labels[i], labels[d.order[i]], d.lam[i]])
  }

  /** The table is consistent with itself: the partner label of sample i is
      the own label of sample `d.order[i]`, and the first column gives back the
      labels. */
  lemma LabelTableConsistent(labels: seq<real>, d: Draw)
    requires InRange(d.order, |labels|) && |d.lam| == |labels|
    ensures var t := LabelTable(labels, d);
      && (forall i :: 0 <= i < |t| ==> t[i][1] == t[d.order[i]][0])
      && seq(|t|, i requires 0 <= i < |t| => t[i][0]) == labels
  {
  }

  /** The labels of a batch as one-element samples. */
  function AsSamples(labels: seq<real>): (rows: seq<seq<real>>)
    ensures |rows| == |labels| && Rectangular(rows)
    ensures forall i :: 0 <= i < |rows| ==> rows[i] == [labels[i]]
  {
    seq(|labels|, i requires 0 <= i < |labels| => [labels[i]])
  }

  /** What a consumer of a label table row `[own, partner, lam]` computes:
      the own label weighted by `lam`, plus the partner's by `1 - lam`. */
  function MixLabels(row: seq<real>): real
    requires |row| == 3
  {
    row[2] * row[0] + (1.0 - row[2]) * row[1]
  }

  /** The label table carries what a consumer needs to mix labels the way the
      images were mixed: treating each label as a one-element sample, the
      mixup of label i is what `MixLabels` computes from row i of the table. */
  lemma LabelTableMatchesMixedLabels(labels: seq<real>, d: Draw, i: nat)
    requires InRange(d.order, |labels|) && |d.lam| == |labels|
    requires i < |labels|
    ensures Mixed(AsSamples(labels), d)[i] == [MixLabels(LabelTable(labels, d)[i])]
  {
    var rows := AsSamples(labels);
    var p := d.order[i];
    var row := LabelTable(labels, d)[i];
    assert rows[i] == [labels[i]] && rows[p] == [labels[p]];
    assert row == [labels[i], labels[p], d.lam[i]];
    var mixed := Mixed(rows, d)[i];
    assert mixed == Blend(rows[i], rows[p], d.lam[i]);
    assert |mixed| == 1;
    assert mixed[0] == d.lam[i] * labels[i] + (1.0 - d.lam[i]) * labels[p];
    assert mixed[0] == MixLabels(row);
    assert mixed == [mixed[0]];
  }

  /** The per-batch call of `LabelMixup` (`label_mixup`). It draws the partner
      order and the weights exactly as `MixupBatch` does, then fills the three
      columns of `dst` one after the other and returns `dst`. The label batch
      is only read. */
  method LabelMixup(bits: BitGenerator, state: State, labBatch: array<real>, dst: array2<real>)
    returns (out: array2<real>)
    requires Sound(bits)
    requires dst.Length0 == labBatch.Length && dst.Length1 == 3
    modifies dst
    ensures out == dst
    ensures Rows(dst) == LabelTable(labBatch[..], Draws(bits, state.randomSeed, labBatch.Length))
  {
    var n := labBatch.Length;
    var rng := DefaultRng(state.randomSeed);
    var drawn := DrawPermutation(bits, rng, n);
    var mixupOrder := drawn.0;
    rng := drawn.1;
    var weights := DrawRandom(bits, rng, n);
    var lam := weights.0;
    rng := weights.1;

    for i := 0 to n
      invariant forall k :: 0 <= k < i ==> dst[k, 0] == labBatch[k]
    {
      dst[i, 0] := labBatch[i];
    }
    for i := 0 to n
      invariant forall k :: 0 <= k < n ==> dst[k, 0] == labBatch[k]
      invariant forall k :: 0 <= k < i ==> dst[k, 1] == labBatch[mixupOrder[k]]
    {
      dst[i, 1] := labBatch[mixupOrder[i]];
    }
    for i := 0 to n
      invariant forall k :: 0 <= k < n ==> dst[k, 0] == labBatch[k]
      invariant forall k :: 0 <= k < n ==> dst[k, 1] == labBatch[mixupOrder[k]]
      invariant forall k :: 0 <= k < i ==> dst[k, 2] == lam[k]
    {
      dst[i, 2] := lam[i];
    }
    out := dst;

    ghost var d := Draws(bits, state.randomSeed, n);
    assert d.order == mixupOrder && d.lam == lam;
    RowsAre(dst, LabelTable(labBatch[..], d));
  }

  /** The per-batch call of `LabelMixup` as the source writes it: the first
      draw asks for `rng.permtuation`, a name `Generator` does not have, so
      the call ends with an attribute error before anything is drawn or
      written. */
  method LabelMixupAsWritten(bits: BitGenerator, state: State, labBatch: array<real>, dst: array2<real>)
    returns (r: Result<array2<real>, Fault>)
    ensures r == Failure(AttributeError("permtuation"))
  {
    SourceNamesMissing();
    var rng := DefaultRng(state.randomSeed);
    var permutation := GetAttr(rng, "permtuation");
    if permutation.Success? {
      assert false;
    }
    r := Failure(permutation.error);
  }

  /** The attribute names the source uses are not attributes of numpy's
      `Generator`; the names of the evident intent are. */
  lemma SourceNamesMissing()
    ensures "permtuation" !in GeneratorAttributes && "rand" !in GeneratorAttributes
    ensures "permutation" in GeneratorAttributes && "random" in GeneratorAttributes
  {
    SourceNamesNotDistributions();
  }

  /** Neither misspelt name is one of the distributions. */
  lemma SourceNamesNotDistributions()
    ensures "permtuation" !in ContinuousDistributions && "rand" !in ContinuousDistributions
    ensures "permtuation" !in DiscreteDistributions && "rand" !in DiscreteDistributions
  {
  }

  // ---------------------------------------------------------------------------
  // Both operators on one batch

  /** Image row i is blended with the sample whose label the label table
      records as row i's partner label, at the weight the table records: the
      two operators agree on partners and weights. */
  lemma PartnersAgree(rows: seq<seq<real>>, labels: seq<real>, d: Draw, i: nat)
    requires Rectangular(rows) && |labels| == |rows|
    requires InRange(d.order, |rows|) && |d.lam| == |rows|
    requires i < |rows|
    ensures var t := LabelTable(labels, d);
      exists p :: 0 <= p < |rows| && t[i][1] == labels[p]
        && Mixed(rows, d)[i] == Blend(rows[i], rows[p], t[i][2])
  {
    var p := d.order[i];
    assert LabelTable(labels, d)[i][1] == labels[p];
  }

  /** One batch through both per-batch calls, with the same pipeline state:
      image row i is blended with sample `p`, the partner drawn for row i, at
      weight `w`, and row i of the label table records `p`'s label as the
      partner label and `w` as the weight. */
  method MixupWithLabels(bits: BitGenerator, state: State,
                         imageBatch: array2<real>, imageDst: array2<real>,
                         labBatch: array<real>, labelDst: array2<real>)
    returns (images: array2<real>, labels: array2<real>)
    requires Sound(bits)
    requires imageDst != imageBatch && labelDst != imageBatch && labelDst != imageDst
    requires imageDst.Length0 == imageBatch.Length0 && imageDst.Length1 == imageBatch.Length1
    requires labBatch.Length == imageBatch.Length0
    requires labelDst.Length0 == labBatch.Length && labelDst.Length1 == 3
    modifies imageBatch, imageDst, labelDst
    ensures images == imageBatch && labels == labelDst
    ensures var partner := Draws(bits, state.randomSeed, labBatch.Length).order;
      forall i :: 0 <= i < labBatch.Length ==>
        && labels[i, 0] == labBatch[i]
        && labels[i, 1] == labBatch[partner[i]]
        && Rows(images)[i] == Blend(old(Rows(imageBatch))[i], old(Rows(imageBatch))[partner[i]], labels[i, 2])
  {
    ghost var original := Rows(imageBatch);
    images := MixupBatch(bits, state, imageBatch, imageDst);
    labels := LabelMixup(bits, state, labBatch, labelDst);
    ghost var d := Draws(bits, state.randomSeed, labBatch.Length);
    ghost var table := Rows(labels);
    assert table == LabelTable(labBatch[..], d);
    forall i | 0 <= i < labBatch.Length
      ensures labels[i, 0] == labBatch[i] && labels[i, 1] == labBatch[d.order[i]] && labels[i, 2] == d.lam[i]
    {
      assert table[i] == [labBatch[i], labBatch[d.order[i]], d.lam[i]];
      assert labels[i, 0] == table[i][0] && labels[i, 1] == table[i][1] && labels[i, 2] == table[i][2];
    }
  }
}
