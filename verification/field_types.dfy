/**
 The `FieldType` vocabulary of config/entity.ts and `fieldTypeToSql`.

 The source type is a union of twelve string literals; a value outside the
 union can still reach the code at run time, so the datatype has an `Other`
 arm carrying the raw string. `FieldType` keeps only the values whose `Other`
 arm holds a string outside the union, so every type string has exactly one
 field type. `Parse` and `Name` convert between the two views.
 */
module FieldTypes {
  import opened Wrappers

  datatype RawFieldType =
    | Text | RichText | Number | Currency | Date | DateTime | Boolean
    | Select | MultiSelect | Tags | Url | Email
    | Other(name: string)

  /** The string literal of the union for each field type. */
  function Name(t: RawFieldType): string {
    match t
    case Text => "text"
    case RichText => "rich-text"
    case Number => "number"
    case Currency => "currency"
    case Date => "date"
    case DateTime => "datetime"
    case Boolean => "boolean"
    case Select => "select"
    case MultiSelect => "multi-select"
    case Tags => "tags"
    case Url => "url"
    case Email => "email"
    case Other(s) => s
  }

  const UnionNames: set<string> :=
    {"text", "rich-text", "number", "currency", "date", "datetime", "boolean",
     "select", "multi-select", "tags", "url", "email"}

  /** `Other` only ever stands for a string outside the union. */
  predicate Canonical(t: RawFieldType) {
    t.Other? ==> t.name !in UnionNames
  }

  /** A field type: a union member, or `Other` carrying a string outside the union. */
  type FieldType = t: RawFieldType | Canonical(t) witness Text

  /** Reads a raw type string. */
  function Parse(s: string): (t: FieldType)
    ensures Name(t) == s
    ensures t.Other? <==> s !in UnionNames
  {
    if s == "text" then Text
    else if s == "rich-text" then RichText
    else if s == "number" then Number
    else if s == "currency" then Currency
    else if s == "date" then Date
    else if s == "datetime" then DateTime
    else if s == "boolean" then Boolean
    else if s == "select" then Select
    else if s == "multi-select" then MultiSelect
    else if s == "tags" then Tags
    else if s == "url" then Url
    else if s == "email" then Email
    else Other(s)
  }

  /** Every field type is read back from its own name. */
  lemma ParseName(t: FieldType)
    ensures Parse(Name(t)) == t
  {
  }

  /**
   The storage kinds a field type can require: unbounded text, an exact
   integer, a fixed-point decimal of 10 digits with 2 after the point, a
   calendar date, a timestamp with time zone, a boolean that is false when
   unset, and an ordered sequence of text.
   */
  datatype StorageKind =
    | UnboundedText | ExactInteger | Decimal10Scale2 | CalendarDate
    | TimestampWithZone | BooleanDefaultFalse | TextSequence

  /** The storage each field type needs; anything outside the union is stored as text. */
  function StorageOf(t: FieldType): StorageKind {
    match t
    case Text | RichText | Select | Url | Email | Other(_) => UnboundedText
    case Number => ExactInteger
    case Currency => Decimal10Scale2
    case Date => CalendarDate
    case DateTime => TimestampWithZone
    case Boolean => BooleanDefaultFalse
    case MultiSelect | Tags => TextSequence
  }

  /** The PostgreSQL column type spelling a storage kind. */
  function SqlToken(k: StorageKind): string {
    match k
    case UnboundedText => "TEXT"
    case ExactInteger => "INTEGER"
    case Decimal10Scale2 => "NUMERIC(10,2)"
    case CalendarDate => "DATE"
    case TimestampWithZone => "TIMESTAMPTZ"
    case BooleanDefaultFalse => "BOOLEAN DEFAULT FALSE"
    case TextSequence => "TEXT[]"
  }

  /** Reads a column type back into the storage kind it spells. */
  function ParseSqlToken(s: string): (r: Option<StorageKind>)
    ensures r.Some? ==> SqlToken(r.value) == s
  {
    if s == "TEXT" then Some(UnboundedText)
    else if s == "INTEGER" then Some(ExactInteger)
    else if s == "NUMERIC(10,2)" then Some(Decimal10Scale2)
    else if s == "DATE" then Some(CalendarDate)
    else if s == "TIMESTAMPTZ" then Some(TimestampWithZone)
    else if s == "BOOLEAN DEFAULT FALSE" then Some(BooleanDefaultFalse)
    else if s == "TEXT[]" then Some(TextSequence)
    else None
  }

  /** The `mapping` record of `fieldTypeToSql`; None for a key outside the union. */
  function SqlMapping(t: FieldType): Option<string> {
    match t
    case Text => Some("TEXT")
    case RichText => Some("TEXT")
    case Number => Some("INTEGER")
    case Currency => Some("NUMERIC(10,2)")
    case Date => Some("DATE")
    case DateTime => Some("TIMESTAMPTZ")
    case Boolean => Some("BOOLEAN DEFAULT FALSE")
    case Select => Some("TEXT")
    case MultiSelect => Some("TEXT[]")
    case Tags => Some("TEXT[]")
    case Url => Some("TEXT")
    case Email => Some("TEXT")
    case Other(_) => None
  }

  /**
   `fieldTypeToSql`: `mapping[type] || 'TEXT'`. The column type spells the
   storage kind the field type needs and reads back as that kind; an
   out-of-union type is stored like `text`.
   */
  function FieldTypeToSql(t: FieldType): (sql: string)
    ensures sql == SqlToken(StorageOf(t))
    ensures ParseSqlToken(sql) == Some(StorageOf(t))
    ensures t.Other? ==> sql == "TEXT"
  {
    match SqlMapping(t)
    case Some(s) => if s != "" then s else "TEXT"
    case None => "TEXT"
  }

  /** The mapping read from a raw type string: each of the union's entries, and TEXT for any other string. */
  lemma SqlOfRawType(s: string)
    ensures s !in UnionNames ==> FieldTypeToSql(Parse(s)) == "TEXT"
    ensures s in {"text", "rich-text", "select", "url", "email"} ==> FieldTypeToSql(Parse(s)) == "TEXT"
    ensures s in {"multi-select", "tags"} ==> FieldTypeToSql(Parse(s)) == "TEXT[]"
    ensures s == "number" ==> FieldTypeToSql(Parse(s)) == "INTEGER"
    ensures s == "currency" ==> FieldTypeToSql(Parse(s)) == "NUMERIC(10,2)"
    ensures s == "date" ==> FieldTypeToSql(Parse(s)) == "DATE"
    ensures s == "datetime" ==> FieldTypeToSql(Parse(s)) == "TIMESTAMPTZ"
    ensures s == "boolean" ==> FieldTypeToSql(Parse(s)) == "BOOLEAN DEFAULT FALSE"
  {
  }
}
