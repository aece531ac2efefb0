/** The decoding engine shared by every typed model: results and errors,
    decoders for the primitive shapes, the untagged-union resolver, the
    keyword-enum resolver and the record-field helpers. Serde derives all of
    this from attributes; here it is written out. */
module Decoding {
  import opened Values

  datatype Option<+T> = None | Some(value: T)

  /** What went wrong. The wording of serde's messages is not modelled. */
  datatype DecodeError =
    | InvalidType(found: Kind, expected: string)
    | UnknownVariant(keyword: string, keywords: set<string>)
    | MissingField(field: string)
    | NoVariantMatched(enumName: string)

  datatype Result<+T> = Ok(value: T) | Err(error: DecodeError) {
    predicate IsFailure() { Err? }

    function PropagateFailure<U>(): Result<U>
      requires Err?
    {
      Err(error)
    }

    function Extract(): T
      requires Ok?
    {
      value
    }
  }

  // ---------------------------------------------------------------------
  // Primitive shapes. None of them converts across kinds: a number is
  // never read as a string and a string never as a boolean.
  // ---------------------------------------------------------------------

  function DecodeString(v: Value): Result<string> {
    if v.Str? then Ok(v.s) else Err(InvalidType(KindOf(v), "a string"))
  }

  function DecodeBool(v: Value): Result<bool> {
    if v.Bool? then Ok(v.b) else Err(InvalidType(KindOf(v), "a boolean"))
  }

  function DecodeF64(v: Value): Result<F64> {
    if v.Num? then Ok(v.n) else Err(InvalidType(KindOf(v), "f64"))
  }

  /** A `Vec<T>`: every item is decoded in order and the first failing item's
      error is the result. */
  function DecodeItems<T>(xs: seq<Value>, dec: Value -> Result<T>): (r: Result<seq<T>>)
    ensures r.Ok? <==> forall i | 0 <= i < |xs| :: dec(xs[i]).Ok?
    ensures r.Ok? ==> |r.value| == |xs| && forall i | 0 <= i < |xs| :: dec(xs[i]) == Ok(r.value[i])
    ensures r.Err? ==> exists i | 0 <= i < |xs| :: dec(xs[i]) == Err(r.error) && forall j | 0 <= j < i :: dec(xs[j]).Ok?
  {
    if xs == [] then Ok([])
    else
      match dec(xs[0])
      case Err(e) => Err(e)
      case Ok(head) =>
        match DecodeItems(xs[1..], dec)
        case Err(e) =>
          ghost var i :| 0 <= i < |xs[1..]| && dec(xs[1..][i]) == Err(e) && forall j | 0 <= j < i :: dec(xs[1..][j]).Ok?;
          assert dec(xs[i + 1]) == Err(e) && forall j | 0 <= j < i + 1 :: dec(xs[j]).Ok?;
          Err(e)
        case Ok(tail) => Ok([head] + tail)
  }

  function DecodeSequence<T>(v: Value, dec: Value -> Result<T>): Result<seq<T>> {
    if v.Sequence? then DecodeItems(v.items, dec) else Err(InvalidType(KindOf(v), "a sequence"))
  }

  /** A `HashMap<String, T>` whose values come from an untagged union: every
      failing value reports the union's one error, `failure`. */
  function DecodeEntries<T>(m: map<string, Value>, dec: Value -> Result<T>, failure: DecodeError): (r: Result<map<string, T>>)
    ensures r.Ok? <==> forall k | k in m :: dec(m[k]).Ok?
    ensures r.Ok? ==> r.value.Keys == m.Keys && forall k | k in m :: dec(m[k]) == Ok(r.value[k])
    ensures r.Err? ==> r.error == failure
  {
    if forall k | k in m :: dec(m[k]).Ok? then Ok(map k | k in m :: dec(m[k]).value) else Err(failure)
  }

  // ---------------------------------------------------------------------
  // Untagged unions: the variants are tried in declaration order on the same
  // node and the first one that decodes wins. A variant that fails, for
  // whatever reason, hands the node to the next one; when none succeeds the
  // error names the union and nothing else.
  // ---------------------------------------------------------------------

  function Untagged<U>(enumName: string, v: Value, variants: seq<Value -> Result<U>>): (r: Result<U>)
    ensures r.Ok? <==> exists i | 0 <= i < |variants| :: variants[i](v).Ok?
    ensures r.Err? ==> r.error == NoVariantMatched(enumName)
    ensures forall i | 0 <= i < |variants| && variants[i](v).Ok? && (forall j | 0 <= j < i :: variants[j](v).Err?) ::
              r == variants[i](v)
    decreases |variants|
  {
    if variants == [] then Err(NoVariantMatched(enumName))
    else
      match variants[0](v)
      case Ok(u) => Ok(u)
      case Err(_) =>
        var later := variants[1..];
        assert forall i | 1 <= i < |variants| :: variants[i](v) == later[i - 1](v);
        Untagged(enumName, v, later)
  }

  // ---------------------------------------------------------------------
  // Unit enums: a string scalar naming a variant. The table lists each
  // variant with its renamed keyword, in declaration order.
  // ---------------------------------------------------------------------

  function Keywords<E>(table: seq<(string, E)>): (ks: set<string>)
    ensures forall i | 0 <= i < |table| :: table[i].0 in ks
    ensures forall k | k in ks :: exists i | 0 <= i < |table| :: table[i].0 == k
  {
    if table == [] then {}
    else
      var ks := {table[0].0} + Keywords(table[1..]);
      assert forall i | 1 <= i < |table| :: table[i] == table[1..][i - 1];
      ks
  }

  /** The variant of the first table entry whose keyword is `s`. */
  function Lookup<E>(table: seq<(string, E)>, s: string): (r: Option<E>)
    ensures r.Some? <==> s in Keywords(table)
    ensures r.Some? ==> exists i | 0 <= i < |table| :: table[i] == (s, r.value) && forall j | 0 <= j < i :: table[j].0 != s
  {
    if table == [] then None
    else if table[0].0 == s then Some(table[0].1)
    else
      var r := Lookup(table[1..], s);
      if r.Some? then
        ghost var i :| 0 <= i < |table[1..]| && table[1..][i] == (s, r.value) && forall j | 0 <= j < i :: table[1..][j].0 != s;
        assert table[i + 1] == (s, r.value) && forall j | 0 <= j < i + 1 :: table[j].0 != s;
        r
      else r
  }

  /** `expected` names the enum in a type error. */
  function DecodeKeyword<E>(expected: string, v: Value, table: seq<(string, E)>): (r: Result<E>)
    ensures !v.Str? ==> r == Err(InvalidType(KindOf(v), expected))
    ensures v.Str? ==> (r.Ok? <==> v.s in Keywords(table))
    ensures r.Ok? ==> exists i | 0 <= i < |table| :: table[i] == (v.s, r.value) && forall j | 0 <= j < i :: table[j].0 != v.s
    ensures v.Str? && r.Err? ==> r.error == UnknownVariant(v.s, Keywords(table))
  {
    if !v.Str? then Err(InvalidType(KindOf(v), expected))
    else
      match Lookup(table, v.s)
      case Some(e) => Ok(e)
      case None => Err(UnknownVariant(v.s, Keywords(table)))
  }

  // ---------------------------------------------------------------------
  // Record fields. Keys not named by a record are never looked at, so they
  // are ignored.
  // ---------------------------------------------------------------------

  /** A field marked `#[serde(default)]`: an absent key yields `dflt`. */
  function DefaultedField<T>(m: map<string, Value>, key: string, dflt: T, dec: Value -> Result<T>): (r: Result<T>)
    ensures r.Ok? <==> key !in m || dec(m[key]).Ok?
    ensures r.Ok? ==> r.value == if key in m then dec(m[key]).value else dflt
    ensures r.Err? ==> key in m && dec(m[key]) == Err(r.error)
  {
    if key in m then dec(m[key]) else Ok(dflt)
  }

  /** An `Option<T>` field: an absent key or a null value yields `None`. */
  function OptionalField<T>(m: map<string, Value>, key: string, dec: Value -> Result<T>): (r: Result<Option<T>>)
    ensures r == Ok(None) <==> key !in m || m[key] == Null
    ensures r.Ok? <==> key !in m || m[key] == Null || dec(m[key]).Ok?
    ensures r.Ok? && r.value.Some? ==> key in m && dec(m[key]) == Ok(r.value.value)
    ensures r.Err? ==> key in m && m[key] != Null && dec(m[key]) == Err(r.error)
  {
    if key !in m || m[key] == Null then Ok(None)
    else
      match dec(m[key])
      case Ok(t) => Ok(Some(t))
      case Err(e) => Err(e)
  }

  /** A required field, first step: its value is decoded when present; whether
      it is missing is only decided by `Required`, after every present field. */
  function PresentField<T>(m: map<string, Value>, key: string, dec: Value -> Result<T>): (r: Result<Option<T>>)
    ensures r == Ok(None) <==> key !in m
    ensures r.Ok? <==> key !in m || dec(m[key]).Ok?
    ensures r.Ok? && r.value.Some? ==> key in m && dec(m[key]) == Ok(r.value.value)
    ensures r.Err? ==> key in m && dec(m[key]) == Err(r.error)
  {
    if key !in m then Ok(None)
    else
      match dec(m[key])
      case Ok(t) => Ok(Some(t))
      case Err(e) => Err(e)
  }

  /** A required field, second step: a field that was absent is missing. */
  function Required<T>(field: Option<T>, key: string): (r: Result<T>)
    ensures r.Ok? <==> field.Some?
    ensures r.Ok? ==> r.value == field.value
    ensures r.Err? ==> r.error == MissingField(key)
  {
    match field
    case Some(t) => Ok(t)
    case None => Err(MissingField(key))
  }

  /** Entries that each decode to the value under the same key of `m`
      decode to `m` as a whole. */
  lemma EntriesDecodeTo<T>(e: map<string, Value>, m: map<string, T>, dec: Value -> Result<T>, failure: DecodeError)
    requires e.Keys == m.Keys && forall k | k in e :: dec(e[k]) == Ok(m[k])
    ensures DecodeEntries(e, dec, failure) == Ok(m)
  {
    var r := DecodeEntries(e, dec, failure);
    assert r.Ok?;
    assert forall k | k in m :: r.value[k] == m[k] by {
      forall k | k in m ensures r.value[k] == m[k] {
        assert dec(e[k]) == Ok(r.value[k]);
      }
    }
    assert r.value == m;
  }
}
