/**
  The part of Zod's meaning that the configuration rules use, as a small
  schema language and its acceptance relation: `z.string()` with its
  `min`, `max`, `length` checks and a `refine` predicate, `z.boolean()`,
  `z.literal(b)` on a boolean, `.optional()`, `z.record(k, v)`,
  `z.object(shape)` and `z.discriminatedUnion(key, options)`.

  A value is an `Option<Json>` so that `undefined`, what an absent object
  key reads as, can be given to a schema: only `.optional()` accepts it.
  Objects are not `.strict()`: keys outside the shape are ignored.
 */
module Schema {
  import opened JsonValue

  /** A check chained onto `z.string()`. */
  datatype StringCheck =
    | MinLength(min: nat)          // .min(n)
    | MaxLength(max: nat)          // .max(n)
    | ExactLength(len: nat)        // .length(n)
    | Refine(holds: string -> bool) // .refine(p)

  datatype Schema =
    | Str(checks: seq<StringCheck>)
    | Boolean
    | Literal(b: bool)
    | Optional(inner: Schema)
    | Record(keys: Schema, values: Schema)
    | ObjectOf(shape: seq<Field>)
    | DiscriminatedUnion(discriminator: string, options: seq<Schema>)

  /** One `key: schema` entry of a `z.object` shape. */
  datatype Field = Field(key: string, schema: Schema)

  predicate CheckHolds(c: StringCheck, s: string)
  {
    match c
    case MinLength(n) => |s| >= n
    case MaxLength(n) => |s| <= n
    case ExactLength(n) => |s| == n
    case Refine(p) => p(s)
  }

  /** A string passes `z.string()` with its checks when every check holds. */
  function ChecksHold(checks: seq<StringCheck>, s: string): (r: bool)
    ensures r <==> forall i :: 0 <= i < |checks| ==> CheckHolds(checks[i], s)
  {
    if checks == [] then true
    else CheckHolds(checks[0], s) && ChecksHold(checks[1..], s)
  }

  /** The boolean literal a `z.object` shape gives to `key`, if any; this is
      what `z.discriminatedUnion` reads off each option. */
  function FieldTag(shape: seq<Field>, key: string): (r: Option<bool>)
    ensures r.Some? ==> exists i :: 0 <= i < |shape| && shape[i] == Field(key, Literal(r.value))
  {
    if shape == [] then None
    else if shape[0].key == key then
      (if shape[0].schema.Literal? then Some(shape[0].schema.b) else None)
    else FieldTag(shape[1..], key)
  }

  function Tag(option: Schema, key: string): Option<bool>
  {
    if option.ObjectOf? then FieldTag(option.shape, key) else None
  }

  /** Does the discriminator value `d` read from the input select `option`? */
  predicate Selects(option: Schema, key: string, d: Option<Json>)
  {
    Tag(option, key).Some? && d == Some(Bool(Tag(option, key).value))
  }

  /** The option of a discriminated union the input's discriminator value
      selects: the first whose literal equals it, none when no literal does
      (a missing or non-boolean discriminator selects nothing). */
  function SelectOption(options: seq<Schema>, key: string, d: Option<Json>): (r: Option<nat>)
    ensures r.Some? ==> r.value < |options| && Selects(options[r.value], key, d)
    ensures r.Some? ==> forall j :: 0 <= j < r.value ==> !Selects(options[j], key, d)
    ensures r.None? ==> forall j :: 0 <= j < |options| ==> !Selects(options[j], key, d)
  {
    if options == [] then None
    else if Selects(options[0], key, d) then Some(0)
    else
      match SelectOption(options[1..], key, d)
      case None => None
      case Some(i) => Some(i + 1)
  }

  /** `schema.safeParse(v).success`. Only `.optional()` lets `undefined`
      through, no schema of the language accepts `null`, and the object
      combinators accept objects only. */
  predicate Accepts(schema: Schema, v: Option<Json>)
    ensures Accepts(schema, v) && v.None? ==> schema.Optional?
    ensures v == Some(Null) ==> !Accepts(schema, v)
    ensures Accepts(schema, v) && (schema.ObjectOf? || schema.Record? || schema.DiscriminatedUnion?) ==>
      v.Some? && v.value.Object?
    decreases schema
  {
    match schema
    case Str(checks) => v.Some? && v.value.String? && ChecksHold(checks, v.value.s)
    case Boolean => v.Some? && v.value.Bool?
    case Literal(b) => v == Some(Bool(b))
    case Optional(inner) => v.None? || Accepts(inner, v)
    case Record(keys, values) =>
      v.Some? && v.value.Object? &&
      forall k :: k in v.value.fields ==>
        Accepts(keys, Some(String(k))) && Accepts(values, Some(v.value.fields[k]))
    case ObjectOf(shape) => v.Some? && v.value.Object? && AcceptsFields(shape, v.value.fields)
    case DiscriminatedUnion(key, options) =>
      v.Some? && v.value.Object? &&
      match SelectOption(options, key, Get(v.value.fields, key))
      case None => false
      case Some(i) => Accepts(options[i], v)
  }

  /** Every entry of a `z.object` shape accepts what the object holds at its
      key (`undefined` when the key is absent). */
  predicate AcceptsFields(shape: seq<Field>, fields: map<string, Json>)
    decreases shape
  {
    shape == [] ||
    (Accepts(shape[0].schema, Get(fields, shape[0].key)) && AcceptsFields(shape[1..], fields))
  }

  /** Spreading two shapes into one object (`{...a, ...b}`) checks both. */
  lemma {:induction false} AcceptsFieldsAppend(a: seq<Field>, b: seq<Field>, fields: map<string, Json>)
    ensures AcceptsFields(a + b, fields) <==> AcceptsFields(a, fields) && AcceptsFields(b, fields)
  {
    if a != [] {
      assert (a + b)[1..] == a[1..] + b;
      AcceptsFieldsAppend(a[1..], b, fields);
    } else {
      assert a + b == b;
    }
  }

  /** A key that `a` does not mention is tagged in `a + b` as in `b`. */
  lemma {:induction false} FieldTagAppend(a: seq<Field>, b: seq<Field>, key: string)
    requires forall i :: 0 <= i < |a| ==> a[i].key != key
    ensures FieldTag(a + b, key) == FieldTag(b, key)
  {
    if a != [] {
      assert (a + b)[1..] == a[1..] + b;
      FieldTagAppend(a[1..], b, key);
    } else {
      assert a + b == b;
    }
  }

  /** An object schema looks only at the keys of its shape. */
  lemma {:induction false} AcceptsFieldsIgnoresOtherKeys(shape: seq<Field>, fields: map<string, Json>, k: string, x: Json)
    requires forall i :: 0 <= i < |shape| ==> shape[i].key != k
    ensures AcceptsFields(shape, fields[k := x]) <==> AcceptsFields(shape, fields)
  {
    if shape != [] {
      assert Get(fields[k := x], shape[0].key) == Get(fields, shape[0].key);
      AcceptsFieldsIgnoresOtherKeys(shape[1..], fields, k, x);
    }
  }
}
