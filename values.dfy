/** The generic value tree that the YAML/JSON parser hands to the decoder:
    every node is null, a boolean, a number, a string, a sequence of nodes
    or a mapping from string keys to nodes. */
module Values {

  /** A 64-bit IEEE floating point number, kept opaque: the decoder only
      carries numbers along, it never computes with them. */
  type F64(==)

  datatype Value =
    | Null
    | Bool(b: bool)
    | Num(n: F64)
    | Str(s: string)
    | Sequence(items: seq<Value>)
    | Mapping(entries: map<string, Value>)

  /** The concrete shape of a node, as reported in a type error. */
  datatype Kind = NullKind | BoolKind | NumberKind | StringKind | SequenceKind | MappingKind

  function KindOf(v: Value): Kind {
    match v
    case Null => NullKind
    case Bool(_) => BoolKind
    case Num(_) => NumberKind
    case Str(_) => StringKind
    case Sequence(_) => SequenceKind
    case Mapping(_) => MappingKind
  }
}
