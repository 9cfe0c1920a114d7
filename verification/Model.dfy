/** The normalised contract model: the values a schema describes, and the schema tree itself.

    Only keywords that decide whether a value is accepted, or that the differ compares, are kept;
    titles, descriptions, examples in prose and source locations are text.
 */
module Model {

  datatype Option<+T> = None | Some(value: T)

  /** A decoded JSON value. Integers and floats are kept apart, as the decoder keeps them. */
  datatype Value =
    | Null
    | Bool(b: bool)
    | Int(i: int)
    | Float(r: real)
    | Str(s: string)
    | Arr(elems: seq<Value>)
    | Obj(fields: map<string, Value>)

  /** A type name. A union such as "string|null" lists its members; a name the validator does not know is `TOther`. */
  datatype JType =
    | TObject | TArray | TString | TBoolean | TInteger | TNumber | TNull
    | TUnion(members: seq<JType>)
    | TOther(name: string)

  /** The ten bounds a conjunction tightens: the larger of two lower bounds, the smaller of two upper bounds. */
  datatype Bounds = Bounds(
    minimum: Option<real>, exclusiveMinimum: Option<real>,
    minLength: Option<int>, minItems: Option<int>, minProperties: Option<int>,
    maximum: Option<real>, exclusiveMaximum: Option<real>,
    maxLength: Option<int>, maxItems: Option<int>, maxProperties: Option<int>)

  datatype Discriminator = Discriminator(propertyName: Option<string>, mapping: map<string, string>)

  /** A `oneof` group of a protobuf message, with its fields. */
  datatype Oneof = Oneof(name: string, fields: seq<string>)

  /** What a protobuf message carries besides its fields. */
  datatype Proto = Proto(
    fieldNumbers: map<int, string>, reservedNumbers: set<int>, explicitPresence: set<string>, oneofs: seq<Oneof>)

  /** Every keyword of a node that is not itself a schema. `Null` in `constant`, `default` or `example` means absent. */
  datatype Keywords = Keywords(
    typ: Option<JType>,
    format: Option<string>,
    nullable: bool,
    enum: Option<seq<Value>>,
    constant: Value,
    default: Value,
    example: Value,
    required: seq<string>,
    bounds: Bounds,
    pattern: Option<string>,
    multipleOf: Option<real>,
    uniqueItems: Option<bool>,
    minContains: Option<int>,
    maxContains: Option<int>,
    dependentRequired: map<string, seq<string>>,
    discriminator: Option<Discriminator>,
    proto: Proto)

  datatype Additional = Unstated | Allowed(allowed: bool) | Described(schema: Schema)

  /** A schema node. An absent list of variants and an empty one behave alike everywhere, so both are `[]`. */
  datatype Schema = Schema(
    kw: Keywords,
    properties: map<string, Schema>,
    additional: Additional,
    items: Option<Schema>,
    prefixItems: seq<Schema>,
    contains: Option<Schema>,
    patternProperties: map<string, Schema>,
    propertyNames: Option<Schema>,
    dependentSchemas: map<string, Schema>,
    ifSchema: Option<Schema>,
    thenSchema: Option<Schema>,
    elseSchema: Option<Schema>,
    oneOf: seq<Schema>,
    anyOf: seq<Schema>,
    allOf: seq<Schema>,
    not_: Option<Schema>)

  const NO_BOUNDS := Bounds(None, None, None, None, None, None, None, None, None, None)

  const NO_KEYWORDS := Keywords(None, None, false, None, Null, Null, Null, [], NO_BOUNDS, None, None, None,
                                None, None, map[], None, Proto(map[], {}, {}, []))

  const ANY := Schema(NO_KEYWORDS, map[], Unstated, None, [], None, map[], None, map[], None, None, None, [], [], [], None)

  /** A node that states a type and nothing else. */
  function Typed(t: JType): Schema {
    ANY.(kw := NO_KEYWORDS.(typ := Some(t)))
  }

  /** Python's `==` on decoded JSON: booleans, integers and floats compare as numbers. Two values are equal when
      their normal forms are the same value. */
  function Norm(v: Value): Value {
    match v
    case Bool(b) => Float(if b then 1.0 else 0.0)
    case Int(i) => Float(i as real)
    case Arr(elems) => Arr(seq(|elems|, i requires 0 <= i < |elems| => Norm(elems[i])))
    case Obj(fields) => Obj(map k | k in fields :: Norm(fields[k]))
    case _ => v
  }

  predicate PyEq(a: Value, b: Value) {
    Norm(a) == Norm(b)
  }

  /** Python's `value in values`. */
  predicate Member(v: Value, values: seq<Value>) {
    exists i :: 0 <= i < |values| && PyEq(v, values[i])
  }

  /** Python's `a == b` on two lists of values. */
  predicate ListEq(a: seq<Value>, b: seq<Value>) {
    |a| == |b| && forall i :: 0 <= i < |a| ==> PyEq(a[i], b[i])
  }
}
