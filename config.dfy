/**
 * The configuration decisions a forward pass takes before building any
 * tensor: which positional encoding, which embedding table the decoder reads,
 * what the output projection reads, and which loss is used.
 */
module Config {
  import opened Outcomes

  /**
   * The command-line arguments the modelled decisions read. Flags are
   * integers: the source tests `tied_embedding` both by truthiness and by
   * `== 1`, and the two differ for values other than 0 and 1.
   */
  datatype Args = Args(
    hiddenUnits: int,
    positionalEncoding: string,
    tiedEmbedding: int,
    tiedProjWeight: int,
    labelSmoothing: int,
    warmupSteps: int)

  /**
   * The part of the `params` record the modelled decisions read; the vocabulary
   * sizes and the activation only shape tensors that are not part of this model.
   */
  datatype Params = Params(startSymbol: int)

  /** Python truthiness of an integer flag. */
  predicate Truthy(flag: int) {
    flag != 0
  }

  datatype PositionalEncoding = Sinusoidal | Learned

  /** The configuration string that names each variant. */
  function EncodingName(e: PositionalEncoding): string {
    match e
    case Sinusoidal => "sinusoidal"
    case Learned => "learned"
  }

  const EncodingError: Error := ValueError("positional encoding has to be either 'sinusoidal' or 'learned'")

  /** Choice of `pos_fn`: exactly the two names are accepted, every other string raises. */
  function SelectPositionalEncoding(mode: string): (r: Result<PositionalEncoding>)
    ensures r.Ok? <==> mode == "sinusoidal" || mode == "learned"
    ensures r.Ok? ==> EncodingName(r.value) == mode
    ensures r.Err? ==> r.error == EncodingError
  {
    if mode == "sinusoidal" then Ok(Sinusoidal)
    else if mode == "learned" then Ok(Learned)
    else Err(EncodingError)
  }

  /** Naming a variant and selecting by that name gives the variant back. */
  lemma EncodingNameRoundTrip(e: PositionalEncoding)
    ensures SelectPositionalEncoding(EncodingName(e)) == Ok(e)
  {
  }

  /** The variable scopes that own a weight matrix the output may read. */
  datatype Table = EncoderEmbedding | DecoderEmbedding | OutputLayer

  function ScopeName(t: Table): string {
    match t
    case EncoderEmbedding => "encoder_embedding"
    case DecoderEmbedding => "decoder_embedding"
    case OutputLayer => "output_layer"
  }

  /**
   * The embedding table the decoder input is looked up in: the encoder's
   * table (opened with reuse) when embeddings are tied, its own otherwise.
   */
  function DecoderEmbeddingTable(a: Args): (t: Table)
    ensures t == EncoderEmbedding <==> Truthy(a.tiedEmbedding)
    ensures t == DecoderEmbedding <==> !Truthy(a.tiedEmbedding)
  {
    if Truthy(a.tiedEmbedding) then EncoderEmbedding else DecoderEmbedding
  }

  /**
   * The tables a first (non-reused) forward pass creates: the encoder
   * embedding always, the decoder embedding unless it is tied, the dense
   * output layer unless the projection is tied.
   */
  function CreatedTables(a: Args): (s: set<Table>)
    ensures EncoderEmbedding in s
    ensures DecoderEmbedding in s <==> DecoderEmbeddingTable(a) == DecoderEmbedding
    ensures OutputLayer in s <==> a.tiedProjWeight != 1
  {
    {EncoderEmbedding}
    + (if Truthy(a.tiedEmbedding) then {} else {DecoderEmbedding})
    + (if a.tiedProjWeight == 1 then {} else {OutputLayer})
  }

  /**
   * The `ValueError` of a `get_variable` lookup in a scope opened with reuse
   * that holds no `lookup_table` variable. The message is a tag naming the
   * missing variable, not the library's full (version-dependent) text.
   */
  function MissingTableError(t: Table): Error {
    ValueError("Variable forward_pass/" + ScopeName(t) + "/lookup_table does not exist, or was not created with tf.get_variable()")
  }

  /** The output projection: an own dense layer, or the transposed `lookup_table` of an embedding plus a bias. */
  datatype Projection = Dense | TiedTranspose(table: Table)

  /** The table whose weights the projection reads. */
  function ProjectionTable(p: Projection): Table {
    match p
    case Dense => OutputLayer
    case TiedTranspose(t) => t
  }

  /** The projection as the source selects it, testing `tied_embedding == 1`. */
  function OutputProjectionAsWritten(a: Args): (p: Projection)
    ensures p.TiedTranspose? <==> a.tiedProjWeight == 1
    ensures p.TiedTranspose? ==> (p.table == EncoderEmbedding <==> a.tiedEmbedding == 1)
    ensures p.TiedTranspose? ==> (p.table == DecoderEmbedding <==> a.tiedEmbedding != 1)
  {
    if a.tiedProjWeight == 1 then
      TiedTranspose(if a.tiedEmbedding == 1 then EncoderEmbedding else DecoderEmbedding)
    else
      Dense
  }

  /**
   * With a tied projection, the as-written choice names a table the forward
   * pass never created exactly when the flag is neither 0 nor 1; the lookup
   * with reuse then fails.
   */
  lemma AsWrittenProjectionMissesTable(a: Args)
    requires a.tiedProjWeight == 1
    ensures ProjectionTable(OutputProjectionAsWritten(a)) !in CreatedTables(a) <==> a.tiedEmbedding != 0 && a.tiedEmbedding != 1
  {
  }

  /** The concrete input: `tied_embedding = 2`, `tied_proj_weight = 1`. */
  lemma AsWrittenProjectionCounterexample(a: Args)
    requires a.tiedEmbedding == 2 && a.tiedProjWeight == 1
    ensures DecoderEmbeddingTable(a) == EncoderEmbedding
    ensures OutputProjectionAsWritten(a) == TiedTranspose(DecoderEmbedding)
    ensures DecoderEmbedding !in CreatedTables(a)
  {
  }

  /** The projection tied to the very table the decoder embedding reads. */
  function OutputProjection(a: Args): (p: Projection)
    ensures p.TiedTranspose? <==> a.tiedProjWeight == 1
    ensures ProjectionTable(p) in CreatedTables(a)
    ensures p.TiedTranspose? ==> p.table == DecoderEmbeddingTable(a)
  {
    if a.tiedProjWeight == 1 then TiedTranspose(DecoderEmbeddingTable(a)) else Dense
  }

  /** On the flag values 0 and 1 the corrected choice and the source's choice agree. */
  lemma OutputProjectionAgreesOnBooleanFlags(a: Args)
    requires a.tiedEmbedding == 0 || a.tiedEmbedding == 1
    ensures OutputProjection(a) == OutputProjectionAsWritten(a)
  {
  }

  datatype LossKind = LabelSmoothed | SequenceLoss

  /** `label_smoothing == 1` selects the label-smoothed loss, anything else the plain weighted loss. */
  function SelectLoss(a: Args): (k: LossKind)
    ensures k == LabelSmoothed <==> a.labelSmoothing == 1
  {
    if a.labelSmoothing == 1 then LabelSmoothed else SequenceLoss
  }
}
