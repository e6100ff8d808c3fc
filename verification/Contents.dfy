/** What the files of a model directory hold, as far as prepare/ reads or writes them. */
module Contents {
  datatype Option<+T> = None | Some(value: T)

  /** A tensor's name is its module plus one of the spellings the scripts distinguish. */
  datatype Part = Weight | WeightPacked | WeightScale | WeightShape | Bare
  datatype TensorName = TensorName(base: string, part: Part)

  /** pack_to_int32 is taken as given: a packed weight is kept as its integer codes. */
  datatype Tensor =
    | Dense(rows: seq<seq<real>>)
    | Codes(codes: seq<seq<int>>)
    | Scales(scales: seq<seq<real>>)
    | Shape(outF: int, inF: int)

  type Tensors = map<TensorName, Tensor>
  type Metadata = map<string, string>
  type WeightMap = map<TensorName, string>

  datatype Weights = Weights(numBits: nat, symmetric: bool, zpDtype: Option<string>,
                             groupSize: nat, strategy: string, kind: string, rest: string)
  datatype Group = Group(targets: seq<string>, weights: Weights, rest: string)

  /** quantization_config: every field load_config() inspects may be missing. */
  datatype Quantization = Quantization(quantMethod: Option<string>, ignore: Option<seq<string>>,
                                       groups: map<string, Group>)

  datatype Content =
    | Torn                                                  // a write that did not finish
    | ShardFile(tensors: Tensors, meta: Metadata)
    | ConfigFile(quant: Option<Quantization>, rest: string)
    | IndexFile(weightMap: WeightMap, rest: string)
    | IdsFile(ids: seq<int>)
    | OtherFile(bytes: string)
}
